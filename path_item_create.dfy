/** The decision behind `PathItem.create` in src/path/PathItem.Create.js:
    whether an argument (SVG path data, a segments array or a plain object
    holding either) describes a plain Path or a CompoundPath of several
    sub-paths. */
module PathItemCreate {

  /** The JavaScript values `create` can be handed. A plain object is an `Object`
      whose `plain` flag says what `Base.isPlainObject` answers for it; functions
      and class instances are objects whose flag is false. */
  datatype JsValue =
    | Undefined
    | Null
    | Boolean(b: bool)
    | Number(n: real)
    | NaN
    | Str(s: string)
    | Array(elements: seq<JsValue>)
    | Object(plain: bool, properties: map<string, JsValue>)

  /** JavaScript truthiness: false, 0, NaN, "", null and undefined are falsy. */
  predicate Truthy(v: JsValue) {
    match v
    case Undefined => false
    case Null => false
    case Boolean(b) => b
    case Number(n) => n != 0.0
    case NaN => false
    case Str(s) => s != ""
    case Array(_) => true
    case Object(_, _) => true
  }

  predicate IsArray(v: JsValue) { v.Array? }

  /** `v[key]` for a named property: the property of an object, `undefined` otherwise. */
  function Property(v: JsValue, key: string): JsValue {
    if v.Object? && key in v.properties then v.properties[key] else Undefined
  }

  /** `v[0]`: the first element of an array or character of a string, an object's
      property "0", and `undefined` where there is none. */
  function First(v: JsValue): (r: JsValue)
    ensures v.Array? && |v.elements| > 0 ==> r == v.elements[0]
    ensures v.Array? && |v.elements| == 0 ==> r == Undefined
  {
    match v
    case Array(e) => if |e| > 0 then e[0] else Undefined
    case Str(s) => if |s| > 0 then Str([s[0]]) else Undefined
    case Object(_, props) => if "0" in props then props["0"] else Undefined
    case _ => Undefined
  }

  // ---------------------------------------------------------------------------
  // The two regular expressions applied to path data
  // ---------------------------------------------------------------------------

  /** The characters `\s` matches in a JavaScript regular expression: the
      ECMAScript WhiteSpace and LineTerminator characters. */
  predicate IsWhitespace(c: char) {
    || '\t' <= c <= '\r'
    || c == ' '
    || c == '\U{00A0}' || c == '\U{1680}'
    || ('\U{2000}' <= c <= '\U{200A}')
    || c == '\U{2028}' || c == '\U{2029}' || c == '\U{202F}' || c == '\U{205F}'
    || c == '\U{3000}' || c == '\U{FEFF}'
  }

  /** What `/m/i` matches, and what the `z` of `/z\s*\S+/i` matches. */
  predicate IsMoveTo(c: char) { c == 'm' || c == 'M' }
  predicate IsClosePath(c: char) { c == 'z' || c == 'Z' }

  /** The length of `data.match(/m/gi) || []`: the number of moveTo letters. */
  function MoveToCount(data: string): (n: nat)
    ensures n <= |data|
  {
    if data == [] then 0
    else (if IsMoveTo(data[0]) then 1 else 0) + MoveToCount(data[1..])
  }

  /** `/z\s*\S+/i.test(data)`, scanning for the first z at which the pattern matches. */
  function ClosePathFollowedScan(data: string): bool {
    if data == [] then false
    else (IsClosePath(data[0]) && HasNonWhitespace(data[1..])) || ClosePathFollowedScan(data[1..])
  }

  function HasNonWhitespace(s: string): (b: bool)
    ensures b <==> exists j :: 0 <= j < |s| && !IsWhitespace(s[j])
  {
    if s == [] then false
    else if !IsWhitespace(s[0]) then true
    else
      assert forall j :: 0 < j < |s| ==> s[j] == s[1..][j - 1];
      HasNonWhitespace(s[1..])
  }

  /** The regular expression read literally: a z at i, nothing but whitespace
      after it up to j, and a character other than whitespace at j. */
  ghost predicate ClosePathFollowed(data: string) {
    exists i, j :: 0 <= i < j < |data| && IsClosePath(data[i])
      && (forall k :: i < k < j ==> IsWhitespace(data[k])) && !IsWhitespace(data[j])
  }

  /** Two distinct positions holding a moveTo letter. */
  ghost predicate SeveralMoveTos(data: string) {
    exists i, j :: 0 <= i < j < |data| && IsMoveTo(data[i]) && IsMoveTo(data[j])
  }

  /** Path data is compound when it has more than one m/M, or when a z/Z has
      anything other than whitespace after it. */
  predicate CompoundData(data: string) {
    MoveToCount(data) > 1 || ClosePathFollowedScan(data)
  }

  /** A segments value is compound when its first element is truthy and itself
      starts with an array: a list of segment lists. */
  predicate CompoundSegments(segments: JsValue) {
    var first := First(segments);
    Truthy(first) && IsArray(First(first))
  }

  // ---------------------------------------------------------------------------
  // create
  // ---------------------------------------------------------------------------

  datatype Constructor = PathCtor | CompoundPathCtor

  /** The outcome of `create(arg)`: `new ctor(arg)`, or the TypeError JavaScript
      raises when truthy path data that is not a string is asked for `match`. */
  datatype Outcome = Created(ctor: Constructor, arg: JsValue) | TypeError

  /** The segments and the path data `create` reads off its argument. */
  function SegmentsOf(arg: JsValue): JsValue {
    if arg.Object? && arg.plain then Property(arg, "segments")
    else if arg.Array? then arg
    else Undefined
  }

  function DataOf(arg: JsValue): JsValue {
    if arg.Object? && arg.plain then Property(arg, "pathData")
    else if arg.Str? then arg
    else Undefined
  }

  function Create(arg: JsValue): (r: Outcome)
    // the argument is passed on unchanged
    ensures r.Created? ==> r.arg == arg
    // only path data that is not a string, in a plain object without segments, fails
    ensures r.TypeError? <==>
      arg.Object? && arg.plain && !Truthy(SegmentsOf(arg)) && Truthy(DataOf(arg)) && !DataOf(arg).Str?
    // arguments that are neither plain objects, arrays nor strings give a Path
    ensures !(arg.Object? && arg.plain) && !arg.Array? && !arg.Str? ==> r == Created(PathCtor, arg)
  {
    var segments, data := SegmentsOf(arg), DataOf(arg);
    if Truthy(segments) then
      Created(if CompoundSegments(segments) then CompoundPathCtor else PathCtor, arg)
    else if Truthy(data) then
      if data.Str? then Created(if CompoundData(data.s) then CompoundPathCtor else PathCtor, arg)
      else TypeError
    else Created(PathCtor, arg)
  }

  // ---------------------------------------------------------------------------
  // Properties
  // ---------------------------------------------------------------------------

  /** More than one m/M is counted exactly when two positions hold one. */
  lemma {:induction false} MoveToCountSeveral(data: string)
    ensures MoveToCount(data) > 1 <==> SeveralMoveTos(data)
  {
    if data != [] {
      var rest := data[1..];
      MoveToCountSeveral(rest);
      MoveToCountPositive(rest);
      if IsMoveTo(data[0]) && MoveToCount(rest) >= 1 {
        var j :| 0 <= j < |rest| && IsMoveTo(rest[j]);
        assert IsMoveTo(data[0]) && IsMoveTo(data[j + 1]);
      }
      if SeveralMoveTos(data) {
        var i, j :| 0 <= i < j < |data| && IsMoveTo(data[i]) && IsMoveTo(data[j]);
        if i == 0 {
          assert IsMoveTo(rest[j - 1]);
        } else {
          assert IsMoveTo(rest[i - 1]) && IsMoveTo(rest[j - 1]);
        }
      }
      if SeveralMoveTos(rest) {
        var i, j :| 0 <= i < j < |rest| && IsMoveTo(rest[i]) && IsMoveTo(rest[j]);
        assert IsMoveTo(data[i + 1]) && IsMoveTo(data[j + 1]);
      }
    }
  }

  lemma {:induction false} MoveToCountPositive(data: string)
    ensures MoveToCount(data) >= 1 <==> exists j :: 0 <= j < |data| && IsMoveTo(data[j])
  {
    if data != [] {
      var rest := data[1..];
      MoveToCountPositive(rest);
      if exists j :: 0 <= j < |rest| && IsMoveTo(rest[j]) {
        var j :| 0 <= j < |rest| && IsMoveTo(rest[j]);
        assert IsMoveTo(data[j + 1]);
      }
      if exists j :: 0 <= j < |data| && IsMoveTo(data[j]) {
        var j :| 0 <= j < |data| && IsMoveTo(data[j]);
        if j > 0 {
          assert IsMoveTo(rest[j - 1]);
        }
      }
    }
  }

  /** The scan decides the regular expression: a z/Z followed, after optional
      whitespace, by anything else. */
  lemma {:induction false} ClosePathScanIsRegex(data: string)
    ensures ClosePathFollowedScan(data) <==> ClosePathFollowed(data)
  {
    if data != [] {
      var rest := data[1..];
      ClosePathScanIsRegex(rest);
      if IsClosePath(data[0]) && HasNonWhitespace(rest) {
        ClosePathAtFront(data);
      }
      if ClosePathFollowed(rest) {
        ClosePathInRest(data);
      }
      if ClosePathFollowed(data) {
        ClosePathSplit(data);
      }
    }
  }

  lemma ClosePathAtFront(data: string)
    requires data != [] && IsClosePath(data[0]) && HasNonWhitespace(data[1..])
    ensures ClosePathFollowed(data)
  {
    var rest := data[1..];
    var j := FirstNonWhitespace(rest);
    assert forall k :: 0 < k < j + 1 ==> IsWhitespace(data[k]) by {
      forall k | 0 < k < j + 1 ensures IsWhitespace(data[k]) {
        assert data[k] == rest[k - 1];
      }
    }
    assert !IsWhitespace(data[j + 1]);
  }

  lemma ClosePathInRest(data: string)
    requires data != [] && ClosePathFollowed(data[1..])
    ensures ClosePathFollowed(data)
  {
    var rest := data[1..];
    var i, j :| 0 <= i < j < |rest| && IsClosePath(rest[i])
      && (forall k :: i < k < j ==> IsWhitespace(rest[k])) && !IsWhitespace(rest[j]);
    assert forall k :: i + 1 < k < j + 1 ==> IsWhitespace(data[k]) by {
      forall k | i + 1 < k < j + 1 ensures IsWhitespace(data[k]) {
        assert data[k] == rest[k - 1];
      }
    }
    assert IsClosePath(data[i + 1]) && !IsWhitespace(data[j + 1]);
  }

  lemma ClosePathSplit(data: string)
    requires ClosePathFollowed(data)
    ensures (IsClosePath(data[0]) && HasNonWhitespace(data[1..])) || ClosePathFollowed(data[1..])
  {
    var rest := data[1..];
    var i, j :| 0 <= i < j < |data| && IsClosePath(data[i])
      && (forall k :: i < k < j ==> IsWhitespace(data[k])) && !IsWhitespace(data[j]);
    if i == 0 {
      assert !IsWhitespace(rest[j - 1]);
    } else {
      assert forall k :: i - 1 < k < j - 1 ==> IsWhitespace(rest[k]) by {
        forall k | i - 1 < k < j - 1 ensures IsWhitespace(rest[k]) {
          assert rest[k] == data[k + 1];
        }
      }
      assert IsClosePath(rest[i - 1]) && !IsWhitespace(rest[j - 1]);
    }
  }

  /** The position of the first character other than whitespace. */
  function FirstNonWhitespace(s: string): (j: nat)
    requires HasNonWhitespace(s)
    ensures j < |s| && !IsWhitespace(s[j])
    ensures forall k :: 0 <= k < j ==> IsWhitespace(s[k])
  {
    if !IsWhitespace(s[0]) then 0
    else
      assert forall k :: 0 <= k < |s| - 1 ==> s[1..][k] == s[k + 1];
      1 + FirstNonWhitespace(s[1..])
  }

  /** A string is compound exactly when it holds two moveTo letters, or a
      closePath followed, after optional whitespace, by another command. */
  lemma StringCompoundIff(s: string)
    ensures Create(Str(s)).Created?
    ensures Create(Str(s)).ctor == CompoundPathCtor <==> SeveralMoveTos(s) || ClosePathFollowed(s)
  {
    MoveToCountSeveral(s);
    ClosePathScanIsRegex(s);
  }

  /** An array is compound exactly when its first element is truthy and starts
      with an array; in particular an empty array gives a Path. */
  lemma ArrayCompoundIff(e: seq<JsValue>)
    ensures Create(Array(e)).Created?
    ensures Create(Array(e)).ctor == CompoundPathCtor <==> |e| > 0 && Truthy(e[0]) && IsArray(First(e[0]))
    ensures e == [] ==> Create(Array(e)) == Created(PathCtor, Array(e))
  {
  }

  /** Single-path data: a Path, as is the empty string. */
  lemma EmptyStringIsPath()
    ensures Create(Str("")) == Created(PathCtor, Str(""))
  {
  }

  /** In a plain object with truthy segments the segments decide, whatever the path data. */
  lemma SegmentsDecide(properties: map<string, JsValue>, data: JsValue)
    requires "segments" in properties && Truthy(properties["segments"])
    ensures var arg := Object(true, properties);
      var other := Object(true, properties["pathData" := data]);
      && Create(arg) == Created(if CompoundSegments(properties["segments"]) then CompoundPathCtor else PathCtor, arg)
      && Create(other).ctor == Create(arg).ctor
  {
    var other := properties["pathData" := data];
    assert other["segments"] == properties["segments"];
  }

  /** A plain object without segments is decided by its path data, as a string would be. */
  lemma PathDataDecides(properties: map<string, JsValue>, s: string)
    requires "pathData" in properties && properties["pathData"] == Str(s)
    requires !("segments" in properties && Truthy(properties["segments"]))
    ensures Create(Object(true, properties)) == Created(Create(Str(s)).ctor, Object(true, properties))
  {
  }
}
