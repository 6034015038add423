/**
 * The content-payload parser (`parse_content` in run_testing.py).
 * It never fails: every malformed payload yields the empty map, and a
 * well-formed one yields at most the keys `item_id` and `tag`.
 */
module ContentParser {
  import opened Wrappers
  import opened Json

  const ItemIdKey: string := "item_id"
  const TagKey: string := "tag"

  /** The payload keys read from the top-level object and from its `param` object. */
  const PostIdField: string := "postId"
  const LidField: string := "lid"
  const ParamField: string := "param"
  const TagField: string := "tag"

  /**
   * The checks made before anything is extracted: the content is a string,
   * it decodes, the decoded value is an object, and a `param` member, when
   * present, is an object too. Yields that top-level object, or None for
   * each of the error exits.
   */
  function Validated(content: Option<string>, decode: string -> Option<Json>): (r: Option<map<string, Json>>)
    ensures content.None? ==> r.None?
    ensures content.Some? && decode(content.value).None? ==> r.None?
    ensures content.Some? && decode(content.value).Some? && !decode(content.value).value.JObj? ==> r.None?
    ensures r.Some? <==>
      && content.Some?
      && decode(content.value).Some?
      && decode(content.value).value.JObj?
      && (ParamField in decode(content.value).value.fields ==> decode(content.value).value.fields[ParamField].JObj?)
    ensures r.Some? ==> decode(content.value) == Some(JObj(r.value))
  {
    match content
    case None => None
    case Some(text) =>
      match decode(text)
      case None => None
      case Some(v) =>
        if !v.JObj? then None
        else if ParamField in v.fields && !v.fields[ParamField].JObj? then None
        else Some(v.fields)
  }

  /** The item id source: `lid` wins over `postId`. */
  function ItemSource(o: map<string, Json>): (r: Option<Json>)
    ensures r.Some? <==> LidField in o || PostIdField in o
    ensures LidField in o ==> r == Some(o[LidField])
    ensures LidField !in o && PostIdField in o ==> r == Some(o[PostIdField])
  {
    if LidField in o then Some(o[LidField])
    else if PostIdField in o then Some(o[PostIdField])
    else None
  }

  /** The tag source: `param.tag`, when `param` is an object holding `tag`. */
  function TagSource(o: map<string, Json>): (r: Option<Json>)
    ensures r.Some? <==> ParamField in o && o[ParamField].JObj? && TagField in o[ParamField].fields
    ensures r.Some? ==> r.value == o[ParamField].fields[TagField]
  {
    if ParamField in o && o[ParamField].JObj? && TagField in o[ParamField].fields
    then Some(o[ParamField].fields[TagField])
    else None
  }

  /**
   * The parser's result, stated declaratively: the empty map on every error
   * exit, otherwise the string forms of the item id source and tag source
   * that exist.
   */
  function ParseContent(content: Option<string>, rt: JsonRuntime): (r: map<string, string>)
    ensures r.Keys <= {ItemIdKey, TagKey}
    // The error exits: non-string input, decode failure, non-object content, non-object param.
    ensures content.None? ==> r == map[]
    ensures content.Some? && rt.decode(content.value).None? ==> r == map[]
    ensures content.Some? && rt.decode(content.value).Some? && !rt.decode(content.value).value.JObj? ==> r == map[]
    ensures (content.Some? && rt.decode(content.value).Some? && rt.decode(content.value).value.JObj? &&
             ParamField in rt.decode(content.value).value.fields &&
             !rt.decode(content.value).value.fields[ParamField].JObj?) ==> r == map[]
    ensures Validated(content, rt.decode).Some? ==>
      var o := Validated(content, rt.decode).value;
      && (ItemIdKey in r <==> LidField in o || PostIdField in o)
      && (LidField in o ==> r[ItemIdKey] == ToStr(o[LidField], rt.render))
      && (LidField !in o && PostIdField in o ==> r[ItemIdKey] == ToStr(o[PostIdField], rt.render))
      && (TagKey in r <==> ParamField in o && TagField in o[ParamField].fields)
      && (TagKey in r ==> r[TagKey] == ToStr(o[ParamField].fields[TagField], rt.render))
  {
    match Validated(content, rt.decode)
    case None => map[]
    case Some(o) =>
      var item := ItemSource(o);
      var tag := TagSource(o);
      (if item.Some? then map[ItemIdKey := ToStr(item.value, rt.render)] else map[])
      + (if tag.Some? then map[TagKey := ToStr(tag.value, rt.render)] else map[])
  }

  /**
   * The parser as the source runs it: `res` starts empty, `postId` is stored,
   * `lid` overwrites it, `param.tag` is added, and finally every value is
   * coerced to a string. Each early return is one of the caught errors.
   */
  method ParseContentStepwise(content: Option<string>, rt: JsonRuntime) returns (res: map<string, string>)
    ensures res == ParseContent(content, rt)
  {
    if content.None? {
      return map[];
    }
    res := map[];
    var decoded := rt.decode(content.value);
    if decoded.None? {
      return;  // json.JSONDecodeError
    }
    if !decoded.value.JObj? {
      return;  // ValueError: not a dictionary
    }
    var obj := decoded.value.fields;
    if ParamField in obj && !obj[ParamField].JObj? {
      return;  // ValueError: param is not a dictionary
    }
    var raw: map<string, Json> := map[];
    if PostIdField in obj {
      raw := raw[ItemIdKey := obj[PostIdField]];
    }
    if LidField in obj {
      raw := raw[ItemIdKey := obj[LidField]];
    }
    if ParamField in obj && TagField in obj[ParamField].fields {
      raw := raw[TagKey := obj[ParamField].fields[TagField]];
    }
    res := map k | k in raw :: ToStr(raw[k], rt.render);
  }

  /**
   * A `lid` that is JSON null still produces an item id (Python renders it
   * as a string), and it overrides a valid `postId`.
   */
  lemma NullLidStillYieldsItemId(content: string, rt: JsonRuntime, o: map<string, Json>)
    requires rt.decode(content) == Some(JObj(o))
    requires ParamField !in o
    requires LidField in o && o[LidField] == JNull
    ensures ItemIdKey in ParseContent(Some(content), rt)
    ensures ParseContent(Some(content), rt)[ItemIdKey] == rt.render(JNull)
  {
  }
}
