/**
 * The streaming job of run_testing.py end to end: parse each raw event's
 * content, keep the card-click events that carry an item id, maintain each
 * user's top five by timestamp, and publish that user's feature record as
 * an upsert whenever the retained events change.
 */
module Pipeline {
  import opened Wrappers
  import opened Json
  import opened ContentParser
  import opened TopN
  import opened Aggregation

  /** The interaction label an event must carry to count: "clicked a post card". */
  const CardClickTag: string := "\U{70B9}\U{51FB}\U{5E16}\U{5B50}\U{5361}\U{7247}"

  /** A source row: `body.log.uid`, `body.log.serverts` and `body.log.contentstr` (which may be NULL). */
  datatype RawEvent = RawEvent(userId: int, serverTs: int, content: Option<string>)

  /**
   * The filter (`content['item_id'] IS NOT NULL AND content['tag'] = ...`):
   * an event qualifies exactly when its payload is well formed, names an
   * item through `lid` or `postId`, and its `param.tag` renders as the
   * card-click label.
   */
  function Qualify(raw: RawEvent, rt: JsonRuntime): (q: Option<QEvent>)
    ensures q.Some? <==>
      && Validated(raw.content, rt.decode).Some?
      && var o := Validated(raw.content, rt.decode).value;
      && (LidField in o || PostIdField in o)
      && ParamField in o && TagField in o[ParamField].fields
      && ToStr(o[ParamField].fields[TagField], rt.render) == CardClickTag
    ensures q.Some? ==>
      && ItemIdKey in ParseContent(raw.content, rt)
      && q.value == QEvent(raw.userId, ParseContent(raw.content, rt)[ItemIdKey], raw.serverTs)
  {
    var c := ParseContent(raw.content, rt);
    if ItemIdKey in c && TagKey in c && c[TagKey] == CardClickTag
    then Some(QEvent(raw.userId, c[ItemIdKey], raw.serverTs))
    else None
  }

  /** The qualifying events of a raw stream, in arrival order. */
  function Qualifying(raws: seq<RawEvent>, rt: JsonRuntime): (h: seq<QEvent>)
    ensures |h| <= |raws|
  {
    if raws == [] then []
    else
      var n := |raws| - 1;
      Qualifying(raws[..n], rt) + (match Qualify(raws[n], rt) case Some(q) => [q] case None => [])
  }

  /** A dropped event changes no user's retained events. */
  lemma DroppedEventChangesNothing(raws: seq<RawEvent>, raw: RawEvent, rt: JsonRuntime, u: int)
    requires Qualify(raw, rt).None?
    ensures Qualifying(raws + [raw], rt) == Qualifying(raws, rt)
    ensures Retained(Qualifying(raws + [raw], rt), u) == Retained(Qualifying(raws, rt), u)
  {
    assert (raws + [raw])[..|raws|] == raws;
  }

  /** A qualifying event extends the history by exactly the event it becomes. */
  lemma QualifiedAppends(raws: seq<RawEvent>, raw: RawEvent, rt: JsonRuntime)
    requires Qualify(raw, rt).Some?
    ensures Qualifying(raws + [raw], rt) == Qualifying(raws, rt) + [Qualify(raw, rt).value]
  {
    assert (raws + [raw])[..|raws|] == raws;
  }

  /**
   * The published stream for a qualifying history: after each event, one
   * record for its user if that user's retained events changed.
   */
  function Emitted(h: seq<QEvent>, sep: string): (out: seq<FeatureRecord>)
    ensures |out| <= |h|
  {
    if h == [] then []
    else
      var n := |h| - 1;
      var e := h[n];
      var before := Retained(h[..n], e.user);
      var after := Retained(h, e.user);
      assert e in UserEvents(h, e.user);
      Emitted(h[..n], sep) + (if after != before then [Aggregate(e.user, after, sep)] else [])
  }

  /** The raw-stream-to-record-stream transformation of the whole job. */
  function Output(raws: seq<RawEvent>, rt: JsonRuntime, sep: string): (out: seq<FeatureRecord>)
    ensures |out| <= |raws|
  {
    Emitted(Qualifying(raws, rt), sep)
  }

  /** The upsert sink's view: the latest record per user id. */
  function SinkView(recs: seq<FeatureRecord>): (sink: map<int, FeatureRecord>)
    ensures recs == [] ==> sink == map[]
    ensures recs != [] ==> recs[|recs| - 1].user in sink && sink[recs[|recs| - 1].user] == recs[|recs| - 1]
  {
    if recs == [] then map[]
    else
      var n := |recs| - 1;
      SinkView(recs[..n])[recs[n].user := recs[n]]
  }

  lemma SinkViewAppend(recs: seq<FeatureRecord>, rec: FeatureRecord)
    ensures SinkView(recs + [rec]) == SinkView(recs)[rec.user := rec]
  {
    assert (recs + [rec])[..|recs|] == recs;
  }

  /**
   * The sink holds a record for exactly the users with a qualifying event,
   * and each user's record is the aggregate of that user's current top five.
   */
  lemma EmittedStep(h': seq<QEvent>, e: QEvent, sep: string)
    ensures |Retained(h' + [e], e.user)| > 0
    ensures Emitted(h' + [e], sep) == Emitted(h', sep) +
      (if Retained(h' + [e], e.user) != Retained(h', e.user) then [Aggregate(e.user, Retained(h' + [e], e.user), sep)] else [])
  {
    assert (h' + [e])[..|h'|] == h';
  }

  /** The sink after one more qualifying event `e`: only `e.user`'s entry can change. */
  lemma SinkStep(h': seq<QEvent>, e: QEvent, sep: string)
    ensures var before := Retained(h', e.user);
            var after := Retained(h' + [e], e.user);
            |after| > 0 &&
            SinkView(Emitted(h' + [e], sep)) ==
              if after != before then SinkView(Emitted(h', sep))[e.user := Aggregate(e.user, after, sep)]
              else SinkView(Emitted(h', sep))
  {
    EmittedStep(h', e, sep);
    var after := Retained(h' + [e], e.user);
    if after != Retained(h', e.user) {
      var rec := Aggregate(e.user, after, sep);
      assert Emitted(h' + [e], sep) == Emitted(h', sep) + [rec];
      SinkViewAppend(Emitted(h', sep), rec);
    } else {
      assert Emitted(h' + [e], sep) == Emitted(h', sep);
    }
  }

  lemma {:induction false} SinkHoldsCurrentFeature(h: seq<QEvent>, sep: string, u: int)
    ensures u in SinkView(Emitted(h, sep)) <==> UserEvents(h, u) != []
    ensures u in SinkView(Emitted(h, sep)) ==>
      |Retained(h, u)| > 0 && SinkView(Emitted(h, sep))[u] == Aggregate(u, Retained(h, u), sep)
  {
    if h != [] {
      var n := |h| - 1;
      var h', e := h[..n], h[n];
      assert h == h' + [e];
      SinkHoldsCurrentFeature(h', sep, u);
      SinkStep(h', e, sep);
      if u != e.user {
        OtherUsersUnaffected(h', e, u);
      } else {
        OwnHistoryExtended(h', e);
      }
    }
  }

  /**
   * What processing one raw event does to the qualifying history `h` (giving
   * `h'`) and what it publishes: nothing for a dropped event; for a qualifying
   * one, the event is appended and the user's aggregate is published exactly
   * when the user's retained events change.
   */
  ghost predicate Processed(raw: RawEvent, rt: JsonRuntime, sep: string,
                            h: seq<QEvent>, h': seq<QEvent>, rec: Option<FeatureRecord>)
  {
    && (Qualify(raw, rt).None? ==> h' == h && rec.None?)
    && (Qualify(raw, rt).Some? ==>
          var e := Qualify(raw, rt).value;
          && h' == h + [e]
          && (rec.Some? <==> Retained(h', e.user) != Retained(h, e.user))
          && (rec.Some? ==> |Retained(h', e.user)| > 0 && rec.value == Aggregate(e.user, Retained(h', e.user), sep)))
  }

  /** The job's running state: each user's retained events, with the qualifying history as ghost bookkeeping. */
  class FeatureJob {
    const rt: JsonRuntime
    const sep: string
    var retained: map<int, seq<QEvent>>
    ghost var history: seq<QEvent>

    ghost predicate Valid()
      reads this
    {
      retained == Replay(history)
    }

    constructor (rt: JsonRuntime, sep: string)
      ensures Valid()
      ensures this.rt == rt && this.sep == sep
      ensures retained == map[] && history == []
    {
      this.rt := rt;
      this.sep := sep;
      retained := map[];
      history := [];
    }

    /**
     * Insert a qualifying event into its user's retained events, re-rank,
     * cut to five, and publish the user's record if the retained events changed.
     */
    method Ingest(e: QEvent) returns (rec: Option<FeatureRecord>)
      requires Valid()
      modifies this
      ensures Valid()
      ensures history == old(history) + [e]
      ensures retained == old(retained)[e.user := Retained(history, e.user)]
      ensures rec.Some? <==> Retained(history, e.user) != Retained(old(history), e.user)
      ensures rec.Some? ==> |Retained(history, e.user)| > 0 && rec.value == Aggregate(e.user, Retained(history, e.user), sep)
    {
      var current := if e.user in retained then retained[e.user] else [];
      var next := Take(Insert(e, current), Capacity);
      ReplayStep(history, e);
      retained := retained[e.user := next];
      history := history + [e];
      if next != current {
        rec := Some(Aggregate(e.user, next, sep));
      } else {
        rec := None;
      }
    }

    /** Parse and filter one raw event; a qualifying one is ingested, any other is dropped. */
    method Process(raw: RawEvent) returns (rec: Option<FeatureRecord>)
      requires Valid()
      modifies this
      ensures Valid()
      ensures Processed(raw, rt, sep, old(history), history, rec)
      ensures Qualify(raw, rt).None? ==> retained == old(retained)
      ensures Qualify(raw, rt).Some? ==>
        var e := Qualify(raw, rt).value;
        retained == old(retained)[e.user := Retained(history, e.user)]
    {
      var content := ParseContentStepwise(raw.content, rt);
      if ItemIdKey in content && TagKey in content && content[TagKey] == CardClickTag {
        rec := Ingest(QEvent(raw.userId, content[ItemIdKey], raw.serverTs));
      } else {
        rec := None;
      }
    }
  }

  /**
   * The upsert sink agrees with the retained state: it holds a record for
   * exactly the users with retained events, each the aggregate of those.
   */
  ghost predicate SinkAgrees(sink: map<int, FeatureRecord>, h: seq<QEvent>, sep: string)
  {
    forall u :: (u in sink <==> UserEvents(h, u) != []) &&
      (u in sink ==> |Retained(h, u)| > 0 && sink[u] == Aggregate(u, Retained(h, u), sep))
  }

  /** The upsert sink: a published record replaces the previous record for its user. */
  function Upsert(sink: map<int, FeatureRecord>, rec: Option<FeatureRecord>): (sink': map<int, FeatureRecord>)
    ensures rec.Some? ==> sink'.Keys == sink.Keys + {rec.value.user} && sink'[rec.value.user] == rec.value
    ensures rec.Some? ==> forall u :: u != rec.value.user && u in sink ==> sink'[u] == sink[u]
    ensures rec.None? ==> sink' == sink
  {
    match rec
    case Some(r) => sink[r.user := r]
    case None => sink
  }

  /** What the event's own user finds in the sink after the upsert. */
  lemma SinkOwnUser(h: seq<QEvent>, e: QEvent, sink: map<int, FeatureRecord>, rec: Option<FeatureRecord>, sep: string)
    requires SinkAgrees(sink, h, sep)
    requires rec.Some? <==> Retained(h + [e], e.user) != Retained(h, e.user)
    requires rec.Some? ==> |Retained(h + [e], e.user)| > 0 && rec.value == Aggregate(e.user, Retained(h + [e], e.user), sep)
    ensures e.user in Upsert(sink, rec) && UserEvents(h + [e], e.user) != []
    ensures |Retained(h + [e], e.user)| > 0 && Upsert(sink, rec)[e.user] == Aggregate(e.user, Retained(h + [e], e.user), sep)
  {
    OwnHistoryExtended(h, e);
    var u := e.user;
    assert UserEvents(h + [e], u) != [];
    if rec.None? {
      assert |Retained(h, u)| > 0;
      assert UserEvents(h, u) != [];
      assert u in sink && sink[u] == Aggregate(u, Retained(h, u), sep);
    }
  }

  /** Any other user's sink entry is untouched by the upsert, and still agrees. */
  lemma SinkOtherUser(h: seq<QEvent>, e: QEvent, sink: map<int, FeatureRecord>, rec: Option<FeatureRecord>, u: int, sep: string)
    requires SinkAgrees(sink, h, sep)
    requires u != e.user
    requires rec.Some? ==> rec.value.user == e.user
    ensures u in Upsert(sink, rec) <==> UserEvents(h + [e], u) != []
    ensures u in Upsert(sink, rec) ==>
      |Retained(h + [e], u)| > 0 && Upsert(sink, rec)[u] == Aggregate(u, Retained(h + [e], u), sep)
  {
    OtherUsersUnaffected(h, e, u);
    assert u in Upsert(sink, rec) <==> u in sink;
  }

  /** Upserting the record an ingested event publishes keeps the sink in agreement. */
  lemma SinkAfterIngest(h: seq<QEvent>, e: QEvent, sink: map<int, FeatureRecord>, rec: Option<FeatureRecord>, sep: string)
    requires SinkAgrees(sink, h, sep)
    requires rec.Some? <==> Retained(h + [e], e.user) != Retained(h, e.user)
    requires rec.Some? ==>
      |Retained(h + [e], e.user)| > 0 && rec.value == Aggregate(e.user, Retained(h + [e], e.user), sep)
    ensures SinkAgrees(Upsert(sink, rec), h + [e], sep)
  {
    forall u
      ensures (u in Upsert(sink, rec) <==> UserEvents(h + [e], u) != []) &&
        (u in Upsert(sink, rec) ==>
          |Retained(h + [e], u)| > 0 && Upsert(sink, rec)[u] == Aggregate(u, Retained(h + [e], u), sep))
    {
      if u == e.user {
        SinkOwnUser(h, e, sink, rec, sep);
      } else {
        SinkOtherUser(h, e, sink, rec, u, sep);
      }
    }
  }

  /** The latest-record view of the published stream agrees with the retained state. */
  lemma OutputSinkAgrees(h: seq<QEvent>, sep: string)
    ensures SinkAgrees(SinkView(Emitted(h, sep)), h, sep)
  {
    forall u
      ensures (u in SinkView(Emitted(h, sep)) <==> UserEvents(h, u) != []) &&
        (u in SinkView(Emitted(h, sep)) ==>
          |Retained(h, u)| > 0 && SinkView(Emitted(h, sep))[u] == Aggregate(u, Retained(h, u), sep))
    {
      SinkHoldsCurrentFeature(h, sep, u);
    }
  }

  /** Agreement with the retained state determines the sink completely. */
  lemma SinkAgreesUnique(a: map<int, FeatureRecord>, b: map<int, FeatureRecord>, h: seq<QEvent>, sep: string)
    requires SinkAgrees(a, h, sep) && SinkAgrees(b, h, sep)
    ensures a == b
  {
    assert a.Keys == b.Keys by {
      forall u ensures u in a <==> u in b {
        assert (u in a <==> UserEvents(h, u) != []) && (u in b <==> UserEvents(h, u) != []);
      }
    }
    forall u | u in a
      ensures a[u] == b[u]
    {
      assert u in b;
    }
  }

  /**
   * What a replay from empty leaves behind, given the state the job keeps:
   * each user's retained events are the top five of that user's history,
   * and the sink is the latest-record view of the published stream.
   */
  lemma ReplayOutcome(raws: seq<RawEvent>, rt: JsonRuntime, sep: string,
                      retained: map<int, seq<QEvent>>, sink: map<int, FeatureRecord>)
    requires retained == Replay(Qualifying(raws, rt)) && sink == SinkView(Output(raws, rt, sep))
    ensures forall u :: Lookup(retained, u) == Retained(Qualifying(raws, rt), u)
    ensures sink == SinkView(Output(raws, rt, sep))
    ensures forall u :: u in sink <==> UserEvents(Qualifying(raws, rt), u) != []
    ensures forall u :: u in sink ==>
      |Retained(Qualifying(raws, rt), u)| > 0 &&
      sink[u] == Aggregate(u, Retained(Qualifying(raws, rt), u), sep)
  {
    var h := Qualifying(raws, rt);
    forall u
      ensures Lookup(retained, u) == Retained(h, u)
    {
      ReplayAgrees(h, u);
    }
    OutputSinkAgrees(h, sep);
  }

  /** Upserting what an ingest publishes keeps the sink equal to the latest-record view of the published stream. */
  lemma IngestKeepsSink(h: seq<QEvent>, e: QEvent, sep: string, sink: map<int, FeatureRecord>, rec: Option<FeatureRecord>)
    requires sink == SinkView(Emitted(h, sep))
    requires rec.Some? <==> Retained(h + [e], e.user) != Retained(h, e.user)
    requires rec.Some? ==> |Retained(h + [e], e.user)| > 0 && rec.value == Aggregate(e.user, Retained(h + [e], e.user), sep)
    ensures Upsert(sink, rec) == SinkView(Emitted(h + [e], sep))
  {
    EmittedStep(h, e, sep);
    if rec.Some? {
      assert Emitted(h + [e], sep) == Emitted(h, sep) + [rec.value];
      SinkViewAppend(Emitted(h, sep), rec.value);
    } else {
      assert Emitted(h + [e], sep) == Emitted(h, sep);
    }
  }

  /** Extending a prefix by one element. */
  lemma PrefixGrows<T>(s: seq<T>, i: nat)
    requires i < |s|
    ensures s[..i + 1] == s[..i] + [s[i]]
  {
  }

  /**
   * One processed raw event keeps the history equal to the filtered stream,
   * and upserting what it publishes keeps the sink equal to the latest-record
   * view of the published stream.
   */
  lemma ProcessKeepsSink(raws: seq<RawEvent>, i: nat, rt: JsonRuntime, sep: string,
                         h: seq<QEvent>, h': seq<QEvent>, sink: map<int, FeatureRecord>, rec: Option<FeatureRecord>)
    requires i < |raws|
    requires h == Qualifying(raws[..i], rt) && sink == SinkView(Output(raws[..i], rt, sep))
    requires Processed(raws[i], rt, sep, h, h', rec)
    ensures h' == Qualifying(raws[..i + 1], rt)
    ensures Upsert(sink, rec) == SinkView(Output(raws[..i + 1], rt, sep))
  {
    var prefix, raw := raws[..i], raws[i];
    PrefixGrows(raws, i);
    if Qualify(raw, rt).Some? {
      QualifiedAppends(prefix, raw, rt);
      assert h' == Qualifying(prefix + [raw], rt);
      IngestKeepsSink(h, Qualify(raw, rt).value, sep, sink, rec);
      assert Upsert(sink, rec) == SinkView(Emitted(h', sep));
    } else {
      DroppedEventChangesNothing(prefix, raw, rt, 0);
      assert h' == Qualifying(prefix + [raw], rt) && rec.None?;
    }
  }

  /** Process the raw event `raws[i]` with `job` and upsert whatever it publishes into `sink`. */
  method Feed(job: FeatureJob, raws: seq<RawEvent>, i: nat, sink: map<int, FeatureRecord>)
    returns (sink': map<int, FeatureRecord>)
    requires i < |raws|
    requires job.Valid() && job.history == Qualifying(raws[..i], job.rt)
    requires sink == SinkView(Output(raws[..i], job.rt, job.sep))
    modifies job
    ensures job.Valid() && job.history == Qualifying(raws[..i + 1], job.rt)
    ensures sink' == SinkView(Output(raws[..i + 1], job.rt, job.sep))
  {
    ghost var before := job.history;
    var rec := job.Process(raws[i]);
    sink' := Upsert(sink, rec);
    ProcessKeepsSink(raws, i, job.rt, job.sep, before, job.history, sink, rec);
  }

  /** Feed a fresh job every raw event in order, upserting what it publishes into an initially empty sink. */
  method FeedAll(job: FeatureJob, raws: seq<RawEvent>) returns (sink: map<int, FeatureRecord>)
    requires job.Valid() && job.history == []
    modifies job
    ensures job.Valid() && job.history == Qualifying(raws, job.rt)
    ensures sink == SinkView(Output(raws, job.rt, job.sep))
  {
    sink := map[];
    var i := 0;
    while i < |raws|
      invariant 0 <= i <= |raws|
      invariant job.Valid() && job.history == Qualifying(raws[..i], job.rt)
      invariant sink == SinkView(Output(raws[..i], job.rt, job.sep))
    {
      sink := Feed(job, raws, i, sink);
      i := i + 1;
    }
    assert raws[..i] == raws;
  }

  /**
   * Replays a finite raw stream through a fresh job, upserting each
   * published record into a sink keyed by user. The result depends on the
   * stream alone: each user's retained events are the top five of that
   * user's qualifying history, and the sink holds, for exactly the users
   * with a qualifying event, the aggregate of those.
   */
  method RunFromEmpty(raws: seq<RawEvent>, rt: JsonRuntime, sep: string)
    returns (retained: map<int, seq<QEvent>>, sink: map<int, FeatureRecord>)
    ensures forall u :: Lookup(retained, u) == Retained(Qualifying(raws, rt), u)
    ensures sink == SinkView(Output(raws, rt, sep))
    ensures forall u :: u in sink <==> UserEvents(Qualifying(raws, rt), u) != []
    ensures forall u :: u in sink ==>
      |Retained(Qualifying(raws, rt), u)| > 0 &&
      sink[u] == Aggregate(u, Retained(Qualifying(raws, rt), u), sep)
  {
    var job := new FeatureJob(rt, sep);
    sink := FeedAll(job, raws);
    retained := job.retained;
    ReplayOutcome(raws, rt, sep, retained, sink);
  }

  /**
   * Two card clicks for user 42, at 100 ms ("a") and 200 ms ("b"): both are
   * kept, most recent first.
   */
  lemma TwoClicksRetained()
    ensures Retained([QEvent(42, "a", 100), QEvent(42, "b", 200)], 42)
         == [QEvent(42, "b", 200), QEvent(42, "a", 100)]
  {
    var a, b := QEvent(42, "a", 100), QEvent(42, "b", 200);
    var h := [a, b];
    assert h[..1] == [a] && [a][..0] == [];
    assert UserEvents([a], 42) == [a];
    assert UserEvents(h, 42) == h;
    assert SortDesc([a]) == [a];
    assert h[..1] == [a];
    assert SortDesc(h) == Insert(b, [a]) == [b, a];
  }

  /** The record for those two clicks: second 0, feature "last_5_clicks=b,a" with a comma separator. */
  lemma TwoClicksRecord()
    ensures Aggregate(42, [QEvent(42, "b", 200), QEvent(42, "a", 100)], ",")
         == FeatureRecord(42, 0, "last_5_clicks=b,a")
  {
    var r := [QEvent(42, "b", 200), QEvent(42, "a", 100)];
    assert ItemIds(r) == ["b", "a"];
    assert Join(["b", "a"], ",") == "b" + "," + Join(["a"], ",");
    assert Join(["b", "a"], ",") == "b,a";
    assert Feature(r, ",") == "last_5_clicks=b,a";
    assert MaxSeconds(r) == 0;
  }

  /** A decoded payload naming item `id` through `lid`, tagged `tag`. */
  function ClickPayload(id: string, tag: string): Json
  {
    JObj(map[LidField := JStr(id), ParamField := JObj(map[TagField := JStr(tag)])])
  }

  /** A raw event whose payload is a click payload qualifies exactly when its tag is the card-click label. */
  lemma ClickPayloadQualifies(rt: JsonRuntime, u: int, ts: int, c: string, id: string, tag: string)
    requires rt.decode(c) == Some(ClickPayload(id, tag))
    ensures tag == CardClickTag ==> Qualify(RawEvent(u, ts, Some(c)), rt) == Some(QEvent(u, id, ts))
    ensures tag != CardClickTag ==> Qualify(RawEvent(u, ts, Some(c)), rt).None?
  {
    var o := ClickPayload(id, tag).fields;
    assert Validated(Some(c), rt.decode) == Some(o);
    assert LidField in o && o[LidField] == JStr(id);
    assert ParamField in o && TagField in o[ParamField].fields && o[ParamField].fields[TagField] == JStr(tag);
  }

  /** Three raw events of which the first two qualify and the third is dropped. */
  lemma KeepKeepDrop(ra: RawEvent, rb: RawEvent, rc: RawEvent, rt: JsonRuntime)
    requires Qualify(ra, rt).Some? && Qualify(rb, rt).Some? && Qualify(rc, rt).None?
    ensures Qualifying([ra, rb, rc], rt) == [Qualify(ra, rt).value, Qualify(rb, rt).value]
  {
    var one, two, three: seq<RawEvent> := [ra], [ra, rb], [ra, rb, rc];
    assert one == [] + [ra];
    QualifiedAppends([], ra, rt);
    assert Qualifying(one, rt) == [Qualify(ra, rt).value];
    assert two == one + [rb];
    QualifiedAppends(one, rb, rt);
    assert three == two + [rc];
    DroppedEventChangesNothing(two, rc, rt, 0);
  }

  /** The sink after the two clicks holds user 42's record for "b,a". */
  lemma TwoClicksSink()
    ensures 42 in SinkView(Emitted([QEvent(42, "a", 100), QEvent(42, "b", 200)], ","))
    ensures SinkView(Emitted([QEvent(42, "a", 100), QEvent(42, "b", 200)], ","))[42]
         == FeatureRecord(42, 0, "last_5_clicks=b,a")
  {
    var h := [QEvent(42, "a", 100), QEvent(42, "b", 200)];
    assert UserEvents(h, 42) != [] by {
      assert h[..1] == [h[0]];
      assert UserEvents(h, 42) == UserEvents(h[..1], 42) + [h[1]];
    }
    SinkHoldsCurrentFeature(h, ",", 42);
    TwoClicksRetained();
    TwoClicksRecord();
  }

  /**
   * The worked example from raw events: clicks on "a" at 100 ms and "b" at
   * 200 ms, then at 300 ms an interaction on "c" with another tag. The third
   * is filtered out, and the sink ends with user 42's record for "b,a".
   */
  lemma ThreeRawEvents(rt: JsonRuntime, ca: string, cb: string, cc: string, other: string)
    requires rt.decode(ca) == Some(ClickPayload("a", CardClickTag))
    requires rt.decode(cb) == Some(ClickPayload("b", CardClickTag))
    requires rt.decode(cc) == Some(ClickPayload("c", other)) && other != CardClickTag
    ensures var raws := [RawEvent(42, 100, Some(ca)), RawEvent(42, 200, Some(cb)), RawEvent(42, 300, Some(cc))];
      && Qualifying(raws, rt) == [QEvent(42, "a", 100), QEvent(42, "b", 200)]
      && 42 in SinkView(Output(raws, rt, ","))
      && SinkView(Output(raws, rt, ","))[42] == FeatureRecord(42, 0, "last_5_clicks=b,a")
  {
    ClickPayloadQualifies(rt, 42, 100, ca, "a", CardClickTag);
    ClickPayloadQualifies(rt, 42, 200, cb, "b", CardClickTag);
    ClickPayloadQualifies(rt, 42, 300, cc, "c", other);
    KeepKeepDrop(RawEvent(42, 100, Some(ca)), RawEvent(42, 200, Some(cb)), RawEvent(42, 300, Some(cc)), rt);
    TwoClicksSink();
  }
}
