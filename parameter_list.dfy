/**
 * The request parameters of the legacy web framework
 * (web/lib/ozoneframework/php/core/ParameterList.php): values from the
 * AJAX post, or from the URL path `template/key1/value1/key2/...`, the URL
 * query and the post, each stored with its origin. `urldecode`,
 * `is_numeric` and `intval` are functions supplied by the caller, and the
 * request superglobals are parameters.
 */
module ParameterList {
  import opened Wrappers
  import opened PhpStrings

  /** The PHP values a parameter can hold. */
  datatype Value = Str(s: string) | Int(i: int) | Bool(b: bool) | Null

  /** `urldecode`, `is_numeric` and `intval`. */
  datatype Php = Php(urldecode: string -> string, isNumeric: string -> bool, intval: string -> int)

  // ---------------------------------------------------------------------------
  // Value conversion

  /** `convertBool` */
  function ConvertBool(value: string): (r: Option<bool>)
    ensures r == Some(true) <==> value == "yes" || value == "true" || value == "t"
    ensures r == Some(false) <==> value == "no" || value == "false" || value == "f"
  {
    if value == "yes" || value == "true" || value == "t" then Some(true)
    else if value == "no" || value == "false" || value == "f" then Some(false)
    else None
  }

  /** `convertValue`: null becomes '', then the decoded value as an integer, a boolean word or itself. */
  function ConvertValue(value: Option<string>, php: Php): (r: Value)
    ensures value.None? ==> r == Str("")
    ensures value.Some? && php.isNumeric(php.urldecode(value.value)) ==> r == Int(php.intval(php.urldecode(value.value)))
    ensures value.Some? && !php.isNumeric(php.urldecode(value.value)) && ConvertBool(php.urldecode(value.value)).None? ==>
      r == Str(php.urldecode(value.value))
  {
    if value.None? then Str("")
    else
      var decoded := php.urldecode(value.value);
      if php.isNumeric(decoded) then Int(php.intval(decoded))
      else
        match ConvertBool(decoded)
        case Some(b) => Bool(b)
        case None => Str(decoded)
  }

  /**
   * A converted value is never null; it is a boolean exactly for a
   * non-numeric boolean word, and a string other than '' only as the
   * decoded value itself.
   */
  lemma ConvertValueKinds(value: Option<string>, php: Php)
    ensures ConvertValue(value, php) != Null
    ensures ConvertValue(value, php).Bool? <==>
      value.Some? && !php.isNumeric(php.urldecode(value.value)) && ConvertBool(php.urldecode(value.value)).Some?
    ensures ConvertValue(value, php).Bool? ==> ConvertValue(value, php).b == ConvertBool(php.urldecode(value.value)).value
    ensures ConvertValue(value, php).Str? && value.Some? ==>
      ConvertValue(value, php).s == php.urldecode(value.value) && ConvertBool(php.urldecode(value.value)).None?
  {
  }

  /** `fixNewLines`: no carriage return is left. */
  function FixNewLines(text: string): (r: string)
    ensures '\r' !in r
  {
    ReplaceCharGone(ReplaceAll(text, "\r\n", "\n"), '\r', "\n");
    ReplaceAll(ReplaceAll(text, "\r\n", "\n"), "\r", "\n")
  }

  /** A `\r\n` pair becomes one `\n`, whatever surrounds it. */
  lemma FixNewLinesPair(a: string, b: string)
    ensures FixNewLines(a + "\r\n" + b) == FixNewLines(a) + "\n" + FixNewLines(b)
  {
    var s := a + "\r\n" + b;
    assert NoCrossing(a, "\r\n", b) by {
      forall i | 0 <= i < |a| < i + 2
        ensures !OccursAt(s, "\r\n", i)
      {
        assert s[i + 1] == '\r';
      }
    }
    ReplaceAround(a, "\r\n", b, "\n");
    var ra := ReplaceAll(a, "\r\n", "\n");
    var rb := ReplaceAll(b, "\r\n", "\n");
    ReplaceCharAppend(ra + "\n", rb, '\r', "\n");
    ReplaceCharAppend(ra, "\n", '\r', "\n");
    assert ReplaceAll("\n", "\r", "\n") == "\n";
  }

  /** Text without carriage returns is left as it is. */
  lemma FixNewLinesPlain(text: string)
    requires '\r' !in text
    ensures FixNewLines(text) == text
  {
    assert !Contains(text, "\r\n") by {
      forall i | 0 <= i <= |text| - 2
        ensures !OccursAt(text, "\r\n", i)
      {
        assert text[i] in text;
        assert text[i..i + 2][0] == text[i];
      }
    }
    assert !Contains(text, "\r") by {
      forall i | 0 <= i <= |text| - 1
        ensures !OccursAt(text, "\r", i)
      {
        assert text[i] in text;
        assert text[i..i + 1][0] == text[i];
      }
    }
    ReplaceAbsent(text, "\r\n", "\n");
    ReplaceAbsent(text, "\r", "\n");
  }

  // ---------------------------------------------------------------------------
  // The stored parameters

  /** The four arrays of a parameter list. `types` holds null for a parameter added without a type. */
  datatype Params = Params(
    values: map<string, Value>,
    types: map<string, Option<string>>,
    from: map<string, int>,
    all: map<string, map<string, Value>>)

  /** One parameter to store: the key, its value, and the value recorded under its origin in `all`. */
  datatype Entry = Entry(key: string, value: Value, recorded: Value)

  /** The parameters recorded under an origin (none yet when it is absent). */
  function Group(p: Params, origin: string): map<string, Value> {
    if origin in p.all then p.all[origin] else map[]
  }

  /** One iteration of a storing loop. */
  function Store(p: Params, e: Entry, origin: string): Params {
    Params(p.values[e.key := e.value], p.types[e.key := Some(origin)], p.from[e.key := 0],
           p.all[origin := Group(p, origin)[e.key := e.recorded]])
  }

  /** A storing loop over all its entries, in order. */
  function StoreAll(p: Params, entries: seq<Entry>, origin: string): Params
    decreases |entries|
  {
    if |entries| == 0 then p else StoreAll(Store(p, entries[0], origin), entries[1..], origin)
  }

  /** No entry is for key `k`. */
  predicate NoKey(entries: seq<Entry>, k: string) {
    forall j :: 0 <= j < |entries| ==> entries[j].key != k
  }

  /** A key no entry stores keeps its value and type. */
  lemma {:induction false} StoreAllUntouched(p: Params, entries: seq<Entry>, origin: string, k: string)
    requires NoKey(entries, k)
    ensures var q := StoreAll(p, entries, origin);
      (k in q.values <==> k in p.values) && (k in p.values ==> q.values[k] == p.values[k]) &&
      (k in q.types <==> k in p.types) && (k in p.types ==> q.types[k] == p.types[k])
    decreases |entries|
  {
    if |entries| > 0 {
      assert entries[0].key != k;
      assert forall l :: 0 <= l < |entries[1..]| ==> entries[1..][l].key == entries[l + 1].key;
      StoreAllUntouched(Store(p, entries[0], origin), entries[1..], origin, k);
    }
  }

  /** The last entry for a key decides its value, and its type is the loop's origin. */
  lemma {:induction false} StoreAllLast(p: Params, entries: seq<Entry>, origin: string, j: nat)
    requires j < |entries|
    requires forall l :: j < l < |entries| ==> entries[l].key != entries[j].key
    ensures var q := StoreAll(p, entries, origin);
      entries[j].key in q.values && q.values[entries[j].key] == entries[j].value &&
      entries[j].key in q.types && q.types[entries[j].key] == Some(origin)
    decreases |entries|
  {
    var rest := entries[1..];
    assert forall l :: 0 <= l < |rest| ==> rest[l] == entries[l + 1];
    if j == 0 {
      StoreAllUntouched(Store(p, entries[0], origin), rest, origin, entries[0].key);
    } else {
      StoreAllLast(Store(p, entries[0], origin), rest, origin, j - 1);
    }
  }

  // ---------------------------------------------------------------------------
  // The path `template/key1/value1/...`

  /** A path segment that cannot be a key: falsy ('' or '0') or a boolean word. */
  predicate SkippedKey(key: string) {
    !Truthy(key) || ConvertBool(key) != None
  }

  /**
   * The entries the path loop stores from segment `i` on: a skipped segment
   * consumes one segment, a key with a following segment consumes two, and a
   * key in last position gets ''.
   */
  function PathEntries(split: seq<string>, i: nat, php: Php): seq<Entry>
    decreases |split| - i
  {
    if i >= |split| then []
    else if SkippedKey(split[i]) then PathEntries(split, i + 1, php)
    else if i + 1 < |split| then
      var v := ConvertValue(Some(split[i + 1]), php);
      [Entry(split[i], v, v)] + PathEntries(split, i + 2, php)
    else
      var v := ConvertValue(None, php);
      [Entry(split[i], v, v)]
  }

  /**
   * Every entry comes from a segment at or after `i` that is not skipped,
   * with the converted following segment as its value, or '' when there is
   * none.
   */
  lemma {:induction false} PathEntriesFromSegments(split: seq<string>, i: nat, php: Php)
    ensures forall e :: e in PathEntries(split, i, php) ==>
      exists j :: i <= j < |split| && split[j] == e.key && !SkippedKey(split[j]) &&
        e.value == e.recorded &&
        e.value == ConvertValue(if j + 1 < |split| then Some(split[j + 1]) else None, php)
    decreases |split| - i
  {
    if i < |split| {
      if SkippedKey(split[i]) {
        PathEntriesFromSegments(split, i + 1, php);
      } else if i + 1 < |split| {
        PathEntriesFromSegments(split, i + 2, php);
      }
    }
  }

  /** The path loop never stores more entries than there are segments left. */
  lemma {:induction false} PathEntriesCount(split: seq<string>, i: nat, php: Php)
    requires i <= |split|
    ensures |PathEntries(split, i, php)| <= |split| - i
    decreases |split| - i
  {
    if i < |split| {
      if SkippedKey(split[i]) {
        PathEntriesCount(split, i + 1, php);
        assert PathEntries(split, i, php) == PathEntries(split, i + 1, php);
      } else if i + 1 < |split| {
        PathEntriesCount(split, i + 2, php);
        assert |PathEntries(split, i, php)| == 1 + |PathEntries(split, i + 2, php)|;
      } else {
        assert |PathEntries(split, i, php)| == 1;
      }
    }
  }

  /** `/mod/a/1/b`: `a` gets the converted `1`, the trailing `b` gets ''. */
  lemma PathPairs(php: Php)
    ensures var split := ["mod", "a", "1", "b"];
      PathEntries(split, 1, php) == [Entry("a", ConvertValue(Some("1"), php), ConvertValue(Some("1"), php)),
                                     Entry("b", Str(""), Str(""))]
  {
    var split := ["mod", "a", "1", "b"];
    assert !SkippedKey("a") && !SkippedKey("b");
    assert PathEntries(split, 4, php) == [];
  }

  /** `/mod//0/true/x`: the empty key, `0` and `true` are each skipped alone, and `x` is a trailing key. */
  lemma PathSkips(php: Php)
    ensures PathEntries(["mod", "", "0", "true", "x"], 1, php) == [Entry("x", Str(""), Str(""))]
  {
    var split := ["mod", "", "0", "true", "x"];
    assert SkippedKey("") && SkippedKey("0") && SkippedKey("true") && !SkippedKey("x");
    assert PathEntries(split, 4, php) == [Entry("x", Str(""), Str(""))];
    assert PathEntries(split, 1, php) == PathEntries(split, 2, php) == PathEntries(split, 3, php) == PathEntries(split, 4, php);
  }

  /** The query string without anything from a `?` on (`preg_replace('/\?.*$/', '', ...)`). */
  function BeforeQuestion(qs: string): string {
    match StrPos(qs, '?')
    case Some(i) => qs[..i]
    case None => qs
  }

  /** The request URI after its first `?` (`preg_replace('/^[^?]*\?/', '', ...)`), or all of it. */
  function AfterQuestion(uri: string): string {
    match StrPos(uri, '?')
    case Some(i) => uri[i + 1..]
    case None => uri
  }

  /** The entries of the URI's `key=value` pairs; a pair without `=` has a null value, decoded as ''. */
  function UriEntries(pairs: seq<string>, php: Php): seq<Entry>
    decreases |pairs|
  {
    if |pairs| == 0 then []
    else
      var pair := Split(pairs[0], '=');
      var value := Str(php.urldecode(if |pair| > 1 then pair[1] else ""));
      [Entry(pair[0], value, value)] + UriEntries(pairs[1..], php)
  }

  /** The entries of the post: the value with fixed line ends, recorded URL-decoded unless in AJAX mode. */
  function PostEntries(post: seq<(string, string)>, ajax: bool, php: Php): (es: seq<Entry>)
    ensures |es| == |post|
    decreases |post|
  {
    if |post| == 0 then []
    else
      var value := FixNewLines(post[0].1);
      [Entry(post[0].0, Str(value), Str(if ajax then value else php.urldecode(value)))]
      + PostEntries(post[1..], ajax, php)
  }

  /** The template recorded from the first path segment. */
  function WithTemplate(p: Params, split: seq<string>): Params
    requires |split| >= 1
  {
    p.(values := p.values["template" := Str(split[0])], types := p.types["template" := Some("GET")])
  }

  /** Clearing what is recorded under an origin. */
  function Cleared(p: Params, origin: string): Params {
    p.(all := p.all[origin := map[]])
  }

  /** `initParameterList` */
  function Init(p: Params, ajax: bool, queryString: string, requestUri: string, post: seq<(string, string)>, php: Php): Params {
    if ajax then StoreAll(Cleared(p, "AMODULE"), PostEntries(post, true, php), "AMODULE")
    else
      var split := Split(BeforeQuestion(queryString), '/');
      var p1 := StoreAll(WithTemplate(p, split), UriEntries(Split(AfterQuestion(requestUri), '&'), php), "GET");
      var p2 := StoreAll(Cleared(p1, "GET"), PathEntries(split, 1, php), "GET");
      StoreAll(Cleared(p2, "POST"), PostEntries(post, false, php), "POST")
  }

  /**
   * Outside AJAX mode the first path segment is the template, unless a
   * later key of the URI, the path or the post is `template` itself.
   */
  lemma TemplateFromPath(p: Params, queryString: string, requestUri: string, post: seq<(string, string)>, php: Php)
    ensures var split := Split(BeforeQuestion(queryString), '/');
      var paths := PathEntries(split, 1, php);
      var uris := UriEntries(Split(AfterQuestion(requestUri), '&'), php);
      var posts := PostEntries(post, false, php);
      var q := Init(p, false, queryString, requestUri, post, php);
      NoKey(uris, "template") && NoKey(paths, "template") && NoKey(posts, "template") ==>
        "template" in q.values && q.values["template"] == Str(split[0]) &&
        "template" in q.types && q.types["template"] == Some("GET")
  {
    var split := Split(BeforeQuestion(queryString), '/');
    var paths := PathEntries(split, 1, php);
    var uris := UriEntries(Split(AfterQuestion(requestUri), '&'), php);
    var posts := PostEntries(post, false, php);
    var p0 := WithTemplate(p, split);
    var p1 := StoreAll(p0, uris, "GET");
    var p2 := StoreAll(Cleared(p1, "GET"), paths, "GET");
    var q := StoreAll(Cleared(p2, "POST"), posts, "POST");
    assert Init(p, false, queryString, requestUri, post, php) == q;
    if NoKey(uris, "template") && NoKey(paths, "template") && NoKey(posts, "template") {
      hide Init, PathEntries, UriEntries, PostEntries, Split;
      assert "template" in p0.values && p0.values["template"] == Str(split[0]);
      assert "template" in p0.types && p0.types["template"] == Some("GET");
      StoreAllUntouched(p0, uris, "GET", "template");
      assert "template" in p1.values && p1.values["template"] == Str(split[0]);
      StoreAllUntouched(Cleared(p1, "GET"), paths, "GET", "template");
      assert "template" in p2.values && p2.values["template"] == Str(split[0]);
      StoreAllUntouched(Cleared(p2, "POST"), posts, "POST", "template");
      assert "template" in q.values && q.values["template"] == Str(split[0]);
      assert "template" in q.types && q.types["template"] == Some("GET");
    }
  }

  /** A path key not stored again later holds its converted value, with type `GET`. */
  lemma PathValueStored(p: Params, php: Php, split: seq<string>, j: nat)
    requires j < |PathEntries(split, 1, php)|
    requires var entries := PathEntries(split, 1, php);
      forall l :: j < l < |entries| ==> entries[l].key != entries[j].key
    ensures var entries := PathEntries(split, 1, php);
      var q := StoreAll(Cleared(p, "GET"), entries, "GET");
      entries[j].key in q.values && q.values[entries[j].key] == entries[j].value &&
      entries[j].key in q.types && q.types[entries[j].key] == Some("GET")
  {
    StoreAllLast(Cleared(p, "GET"), PathEntries(split, 1, php), "GET", j);
  }

  // ---------------------------------------------------------------------------
  // Access

  /** `parameterTypes[$name]`: null when absent. */
  function TypeOf(p: Params, name: string): Option<string> {
    if name in p.types then p.types[name] else None
  }

  /** PHP's loose `==` on two nullable strings of the framework's kind: null equals ''. */
  predicate LooseEq(a: Option<string>, b: Option<string>) {
    OrEmpty(a) == OrEmpty(b)
  }

  /** `getParameterValue` */
  function GetValue(p: Params, name: string, type1: Option<string>, type2: Option<string>): (v: Value)
    ensures name !in p.values ==> v == Null
    ensures v != Null ==> name in p.values && v == p.values[name]
    ensures name in p.values && (LooseEq(type1, None) || LooseEq(TypeOf(p, name), type1) || LooseEq(TypeOf(p, name), type2)) ==>
      v == p.values[name]
    ensures !LooseEq(type1, None) && !LooseEq(TypeOf(p, name), type1) && !LooseEq(TypeOf(p, name), type2) ==> v == Null
  {
    if LooseEq(type1, None) || LooseEq(TypeOf(p, name), type1) || LooseEq(TypeOf(p, name), type2) then
      (if name in p.values then p.values[name] else Null)
    else Null
  }

  /** `addParameter`. A null type files the value under the key '' of `all`. */
  function Add(p: Params, key: string, value: string, type1: Option<string>): Params {
    var origin := OrEmpty(type1);
    Params(p.values[key := Str(value)], p.types[key := type1], p.from,
           p.all[origin := Group(p, origin)[key := Str(value)]])
  }

  /** `delParameter` */
  function Del(p: Params, key: string): Params {
    p.(values := p.values - {key}, types := p.types - {key})
  }

  /** `getParametersByType`: the parameters whose type is identical to the one asked for. */
  function ByType(p: Params, type1: Option<string>): map<string, Value> {
    map k | k in p.values && TypeOf(p, k) == type1 :: p.values[k]
  }

  /** `resolveParameter`: the value recorded for a key under an origin, or null. */
  function Resolve(p: Params, key: string, origin: string): (v: Option<Value>)
    ensures v.Some? <==> origin in p.all && key in p.all[origin]
  {
    if origin in p.all && key in p.all[origin] then Some(p.all[origin][key]) else None
  }

  /** After adding, the value and the type are the ones added; other keys are untouched. */
  lemma AddThenGet(p: Params, key: string, value: string, type1: Option<string>, other: string)
    requires other != key
    ensures GetValue(Add(p, key, value, type1), key, None, None) == Str(value)
    ensures GetValue(Add(p, key, value, type1), key, type1, None) == Str(value)
    ensures TypeOf(Add(p, key, value, type1), key) == type1
    ensures forall t1, t2 :: GetValue(Add(p, key, value, type1), other, t1, t2) == GetValue(p, other, t1, t2)
  {
  }

  /** An added parameter is listed under its type. */
  lemma AddThenByType(p: Params, key: string, value: string, type1: Option<string>)
    ensures var q := Add(p, key, value, type1);
      key in ByType(q, type1) && ByType(q, type1)[key] == Str(value)
  {
  }

  /**
   * An added parameter is recorded under its type (under '' when it has
   * none); what other origins recorded is untouched.
   */
  lemma AddThenResolve(p: Params, key: string, value: string, type1: Option<string>, origin: string, other: string)
    requires origin != OrEmpty(type1)
    ensures Resolve(Add(p, key, value, type1), key, OrEmpty(type1)) == Some(Str(value))
    ensures Resolve(Add(p, key, value, type1), other, origin) == Resolve(p, other, origin)
  {
  }

  /** Deleting a parameter keeps what its origin recorded for it. */
  lemma DelThenResolve(p: Params, key: string, origin: string)
    ensures Resolve(Del(p, key), key, origin) == Resolve(p, key, origin)
  {
  }

  /** Deleting takes the key out of the values and the types, but not out of `all`. */
  lemma DelThenGet(p: Params, key: string)
    ensures forall t1, t2 :: GetValue(Del(p, key), key, t1, t2) == Null
    ensures TypeOf(Del(p, key), key) == None
    ensures Del(p, key).all == p.all && Del(p, key).from == p.from
  {
  }

  /** `numberOfParameters` counts keys: adding a new one adds one, deleting a present one removes one. */
  lemma ParameterCount(p: Params, key: string, value: string, type1: Option<string>)
    ensures |Add(p, key, value, type1).values| == |p.values| + (if key in p.values then 0 else 1)
    ensures key in p.values ==> |Del(p, key).values| == |p.values| - 1
  {
    if key !in p.values {
      assert Add(p, key, value, type1).values.Keys == p.values.Keys + {key};
    } else {
      assert Add(p, key, value, type1).values.Keys == p.values.Keys;
      assert Del(p, key).values.Keys == p.values.Keys - {key};
    }
  }

  // ---------------------------------------------------------------------------
  // The object

  class ParameterList {
    var parameterArray: map<string, Value>
    var parameterTypes: map<string, Option<string>>
    var parameterFrom: map<string, int>
    var allParameters: map<string, map<string, Value>>

    function State(): Params
      reads this
    {
      Params(parameterArray, parameterTypes, parameterFrom, allParameters)
    }

    constructor ()
      ensures State() == Params(map[], map[], map[], map[])
    {
      parameterArray := map[];
      parameterTypes := map[];
      parameterFrom := map[];
      allParameters := map[];
    }

    method InitParameterList(ajax: bool, queryString: string, requestUri: string, post: seq<(string, string)>, php: Php)
      modifies this
      ensures State() == Init(old(State()), ajax, queryString, requestUri, post, php)
    {
      if ajax {
        allParameters := allParameters["AMODULE" := map[]];
        StoreEach(PostEntries(post, true, php), "AMODULE");
      } else {
        var qs := BeforeQuestion(queryString);
        var split := Split(qs, '/');
        if |split| >= 1 {
          parameterArray := parameterArray["template" := Str(split[0])];
          parameterTypes := parameterTypes["template" := Some("GET")];
        }
        var uri := AfterQuestion(requestUri);
        var uriPairs := Split(uri, '&');
        StoreEach(UriEntries(uriPairs, php), "GET");
        allParameters := allParameters["GET" := map[]];
        ParsePath(split, php);
        allParameters := allParameters["POST" := map[]];
        StoreEach(PostEntries(post, false, php), "POST");
      }
    }

    /** The `foreach` loops over the URI pairs and the post. */
    method StoreEach(entries: seq<Entry>, origin: string)
      modifies this
      ensures State() == StoreAll(old(State()), entries, origin)
    {
      var j := 0;
      while j < |entries|
        invariant 0 <= j <= |entries|
        invariant StoreAll(State(), entries[j..], origin) == StoreAll(old(State()), entries, origin)
      {
        assert entries[j..][0] == entries[j] && entries[j..][1..] == entries[j + 1..];
        StoreOne(entries[j], origin);
        j := j + 1;
      }
    }

    /** The body of the storing loops: one key's value, type, origin flag and recorded value. */
    method StoreOne(e: Entry, origin: string)
      modifies this
      ensures State() == Store(old(State()), e, origin)
    {
      parameterArray := parameterArray[e.key := e.value];
      parameterTypes := parameterTypes[e.key := Some(origin)];
      parameterFrom := parameterFrom[e.key := 0];
      var group := if origin in allParameters then allParameters[origin] else map[];
      allParameters := allParameters[origin := group[e.key := e.recorded]];
    }

    /** The path loop, which steps over a key's value by advancing `i` a second time. */
    method ParsePath(split: seq<string>, php: Php)
      modifies this
      ensures State() == StoreAll(old(State()), PathEntries(split, 1, php), "GET")
    {
      var i := 1;
      while i < |split|
        invariant 1 <= i
        invariant StoreAll(State(), PathEntries(split, i, php), "GET") == StoreAll(old(State()), PathEntries(split, 1, php), "GET")
        decreases |split| - i
      {
        var key := split[i];
        if !Truthy(key) || ConvertBool(key) != None {
          assert PathEntries(split, i, php) == PathEntries(split, i + 1, php);
          i := i + 1;
          continue;
        }
        var valueRaw := if i + 1 < |split| then Some(split[i + 1]) else None;
        var value := ConvertValue(valueRaw, php);
        var e := Entry(key, value, value);
        assert PathEntries(split, i, php) == [e] + PathEntries(split, if valueRaw.Some? then i + 2 else i + 1, php);
        hide PathEntries, ConvertValue, ConvertBool, Truthy;
        StoreOne(e, "GET");
        if valueRaw.Some? {
          i := i + 1;
        }
        i := i + 1;
      }
    }

    function GetParameterValue(name: string, type1: Option<string>, type2: Option<string>): (v: Value)
      reads this
      ensures v == GetValue(State(), name, type1, type2)
    {
      if LooseEq(type1, None) || LooseEq(GetParameterType(name), type1) || LooseEq(GetParameterType(name), type2) then
        (if name in parameterArray then parameterArray[name] else Null)
      else Null
    }

    function GetParameterType(name: string): (t: Option<string>)
      reads this
      ensures t == TypeOf(State(), name)
    {
      if name in parameterTypes then parameterTypes[name] else None
    }

    method DelParameter(key: string)
      modifies this
      ensures State() == Del(old(State()), key)
    {
      parameterArray := parameterArray - {key};
      parameterTypes := parameterTypes - {key};
    }

    method AddParameter(key: string, value: string, type1: Option<string>)
      modifies this
      ensures State() == Add(old(State()), key, value, type1)
    {
      parameterArray := parameterArray[key := Str(value)];
      parameterTypes := parameterTypes[key := type1];
      var origin := OrEmpty(type1);
      var group := if origin in allParameters then allParameters[origin] else map[];
      allParameters := allParameters[origin := group[key := Str(value)]];
    }

    function ResolveParameter(key: string, from: string): (v: Option<Value>)
      reads this
      ensures v == Resolve(State(), key, from)
    {
      if from in allParameters && key in allParameters[from] then Some(allParameters[from][key]) else None
    }

    function NumberOfParameters(): (n: nat)
      reads this
      ensures n == |State().values|
    {
      |parameterArray|
    }

    /** The `foreach` over the values, keeping those of the requested type. */
    method GetParametersByType(type1: Option<string>) returns (out: map<string, Value>)
      ensures out == ByType(State(), type1)
    {
      out := map[];
      var pending := parameterArray.Keys;
      while pending != {}
        invariant pending <= parameterArray.Keys
        invariant forall k :: k in out ==> k in parameterArray && k !in pending
        invariant out == map k | k in parameterArray && k !in pending && TypeOf(State(), k) == type1 :: parameterArray[k]
        decreases |pending|
      {
        var key :| key in pending;
        if GetParameterType(key) == type1 {
          out := out[key := parameterArray[key]];
        }
        pending := pending - {key};
      }
    }
  }
}
