/**
  The part of zod that the payload schemas use: a decoded JSON value, the
  primitive checks (string, boolean, integer, positive, range, non-empty,
  array, object) and the `safeParse` result shape.

  Two checks are left abstract and carried in a `Formats` value: whether a
  string is a URL (`.url()`) and whether `new Date(input)` is a valid date
  (`z.coerce.date()`).
*/
module Schema {
  import opened Wrappers

  /** A decoded JSON body, as `response.json()` hands it to a schema. */
  datatype Json =
    | JNull
    | JBool(b: bool)
    | JNum(n: real)
    | JStr(s: string)
    | JArr(items: seq<Json>)
    | JObj(fields: map<string, Json>)

  /** The checks zod performs whose details are not part of this model. */
  datatype Formats = Formats(isUrl: string -> bool, coercesToDate: Json -> bool)

  /** The `Date` that `new Date(source)` builds; its contents are left abstract. */
  datatype Date = DateFrom(source: Json)

  datatype PathItem = Key(name: string) | Index(i: nat)

  datatype IssueKind =
    | Required
    | InvalidType(expected: string)
    | NotInteger
    | TooSmall(minimum: int, inclusive: bool)
    | TooBig(maximum: int, inclusive: bool)
    | InvalidUrl
    | InvalidDate

  /** The first problem found, and where. */
  datatype Issue = Issue(path: seq<PathItem>, kind: IssueKind)

  /** The record `safeParse` returns and the `safeValidate…` wrappers copy. */
  datatype SafeParseResult<T> = SafeParseResult(success: bool, data: Option<T>, error: Option<Issue>)

  /** An object's member, or `None` (JavaScript's `undefined`) when absent. */
  function Field(v: Option<Json>, key: string): (r: Option<Json>)
    ensures r.Some? <==> v.Some? && v.value.JObj? && key in v.value.fields
  {
    if v.Some? && v.value.JObj? && key in v.value.fields then Some(v.value.fields[key]) else None
  }

  /** `Number.isInteger` on a finite number. */
  predicate IsIntegral(x: real) {
    x.Floor as real == x
  }

  // ---------------------------------------------------------------------------
  // What each primitive schema accepts, stated on the input value.

  predicate IsObject(v: Option<Json>) { v.Some? && v.value.JObj? }

  predicate IsString(v: Option<Json>) { v.Some? && v.value.JStr? }

  predicate IsBool(v: Option<Json>) { v.Some? && v.value.JBool? }

  predicate IsUrl(f: Formats, v: Option<Json>) { IsString(v) && f.isUrl(v.value.s) }

  predicate IsNonEmptyString(v: Option<Json>) { IsString(v) && |v.value.s| >= 1 }

  predicate IsPositiveInt(v: Option<Json>) {
    v.Some? && v.value.JNum? && IsIntegral(v.value.n) && v.value.n > 0.0
  }

  predicate IsIntBetween(v: Option<Json>, lo: int, hi: int) {
    v.Some? && v.value.JNum? && IsIntegral(v.value.n) && lo as real <= v.value.n <= hi as real
  }

  predicate IsDate(f: Formats, v: Option<Json>) { v.Some? && f.coercesToDate(v.value) }

  // ---------------------------------------------------------------------------
  // The primitive schemas. Each accepts exactly what its predicate above
  // describes and hands back the value it was given.

  /** `z.string()` */
  function ParseString(v: Option<Json>): (r: Result<string, IssueKind>)
    ensures r.Success? <==> IsString(v)
    ensures r.Success? ==> v == Some(JStr(r.value))
    ensures v.None? ==> r == Failure(Required)
  {
    match v
    case None => Failure(Required)
    case Some(JStr(s)) => Success(s)
    case Some(_) => Failure(InvalidType("string"))
  }

  /** `z.boolean()` */
  function ParseBool(v: Option<Json>): (r: Result<bool, IssueKind>)
    ensures r.Success? <==> IsBool(v)
    ensures r.Success? ==> v == Some(JBool(r.value))
    ensures v.None? ==> r == Failure(Required)
  {
    match v
    case None => Failure(Required)
    case Some(JBool(b)) => Success(b)
    case Some(_) => Failure(InvalidType("boolean"))
  }

  /** `z.string().url()` */
  function ParseUrl(f: Formats, v: Option<Json>): (r: Result<string, IssueKind>)
    ensures r.Success? <==> IsUrl(f, v)
    ensures r.Success? ==> v == Some(JStr(r.value)) && f.isUrl(r.value)
  {
    var s :- ParseString(v);
    if f.isUrl(s) then Success(s) else Failure(InvalidUrl)
  }

  /** `z.string().min(1)` */
  function ParseNonEmptyString(v: Option<Json>): (r: Result<string, IssueKind>)
    ensures r.Success? <==> IsNonEmptyString(v)
    ensures r.Success? ==> v == Some(JStr(r.value)) && r.value != []
  {
    var s :- ParseString(v);
    if |s| >= 1 then Success(s) else Failure(TooSmall(1, true))
  }

  /** `z.number().int().positive()` */
  function ParsePositiveInt(v: Option<Json>): (r: Result<int, IssueKind>)
    ensures r.Success? <==> IsPositiveInt(v)
    ensures r.Success? ==> v == Some(JNum(r.value as real)) && r.value > 0
  {
    match v
    case None => Failure(Required)
    case Some(JNum(x)) =>
      if !IsIntegral(x) then Failure(NotInteger)
      else if x <= 0.0 then Failure(TooSmall(0, false))
      else Success(x.Floor)
    case Some(_) => Failure(InvalidType("number"))
  }

  /** `z.number().int().min(lo).max(hi)` */
  function ParseIntBetween(v: Option<Json>, lo: int, hi: int): (r: Result<int, IssueKind>)
    ensures r.Success? <==> IsIntBetween(v, lo, hi)
    ensures r.Success? ==> v == Some(JNum(r.value as real)) && lo <= r.value <= hi
  {
    match v
    case None => Failure(Required)
    case Some(JNum(x)) =>
      if !IsIntegral(x) then Failure(NotInteger)
      else if x < lo as real then Failure(TooSmall(lo, true))
      else if x > hi as real then Failure(TooBig(hi, true))
      else Success(x.Floor)
    case Some(_) => Failure(InvalidType("number"))
  }

  /** `z.coerce.date()`: `new Date(undefined)` is an invalid date. */
  function ParseCoercedDate(f: Formats, v: Option<Json>): (r: Result<Date, IssueKind>)
    ensures r.Success? <==> IsDate(f, v)
    ensures r.Success? ==> v == Some(r.value.source)
  {
    if v.Some? && f.coercesToDate(v.value) then Success(DateFrom(v.value)) else Failure(InvalidDate)
  }

  // ---------------------------------------------------------------------------
  // Composition.

  /** Attaches the location to a primitive schema's failure. */
  function At<T>(path: seq<PathItem>, r: Result<T, IssueKind>): (r': Result<T, Issue>)
    ensures r'.Success? <==> r.Success?
    ensures r'.Success? ==> r'.value == r.value
  {
    match r
    case Success(x) => Success(x)
    case Failure(k) => Failure(Issue(path, k))
  }

  /** The object check every `z.object` starts with. */
  function ExpectObject(path: seq<PathItem>, v: Option<Json>): (r: Result<map<string, Json>, Issue>)
    ensures r.Success? <==> IsObject(v)
    ensures r.Success? ==> v == Some(JObj(r.value))
  {
    match v
    case None => Failure(Issue(path, Required))
    case Some(JObj(m)) => Success(m)
    case Some(_) => Failure(Issue(path, InvalidType("object")))
  }

  /** `z.array(element)` applied to the items from index `from` on. */
  function ParseItems<T>(path: seq<PathItem>, items: seq<Json>,
                         element: (seq<PathItem>, Json) -> Result<T, Issue>, from: nat)
    : (r: Result<seq<T>, Issue>)
    requires from <= |items|
    ensures r.Success? <==> forall i :: from <= i < |items| ==> element(path + [Index(i)], items[i]).Success?
    ensures r.Success? ==> |r.value| == |items| - from
    ensures r.Success? ==> forall i :: from <= i < |items| ==> element(path + [Index(i)], items[i]) == Success(r.value[i - from])
    decreases |items| - from
  {
    if from == |items| then Success([])
    else
      var head :- element(path + [Index(from)], items[from]);
      var tail :- ParseItems(path, items, element, from + 1);
      Success([head] + tail)
  }

  /** `z.array(element)` */
  function ParseArray<T>(path: seq<PathItem>, v: Option<Json>,
                         element: (seq<PathItem>, Json) -> Result<T, Issue>)
    : (r: Result<seq<T>, Issue>)
    ensures r.Success? <==> v.Some? && v.value.JArr? &&
                            forall i :: 0 <= i < |v.value.items| ==> element(path + [Index(i)], v.value.items[i]).Success?
    ensures r.Success? ==> |r.value| == |v.value.items| &&
                           forall i :: 0 <= i < |r.value| ==> element(path + [Index(i)], v.value.items[i]) == Success(r.value[i])
  {
    match v
    case None => Failure(Issue(path, Required))
    case Some(JArr(items)) => ParseItems(path, items, element, 0)
    case Some(_) => Failure(Issue(path, InvalidType("array")))
  }

  /** What every `safeValidate…` wrapper does with the outcome of `safeParse`. */
  function ToSafe<T>(r: Result<T, Issue>): (s: SafeParseResult<T>)
    ensures s.success <==> r.Success?
    ensures s.success ==> s.data == Some(r.value) && s.error.None?
    ensures !s.success ==> s.data.None? && s.error == Some(r.error)
  {
    match r
    case Success(x) => SafeParseResult(true, Some(x), None)
    case Failure(e) => SafeParseResult(false, None, Some(e))
  }
}
