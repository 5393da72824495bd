/** The search resolver of `doSearch` (script.js:165-179): a query is
    trimmed and lower-cased, ignored below three characters, and then
    resolved to a key by the numeric branch or by the catalog names. */
module Search {

  import opened Wrappers
  import opened Records
  import opened Text
  import opened Arrays

  const MIN_QUERY_LENGTH: nat := 3

  /** The query `doSearch` works with: the input text trimmed, then
      lower-cased (script.js:166). Its length is that of the trimmed text. */
  function NormaliseQuery(input: string): (q: string)
    ensures |q| == |Trim(input)|
    ensures forall i :: 0 <= i < |q| ==> !IsAsciiUpper(q[i])
    ensures q == [] || (!IsJsSpace(q[0]) && !IsJsSpace(q[|q| - 1]))
  {
    var t := Trim(input);
    LowerKeepsEndSpaces(t);
    Lower(t)
  }

  /** The normalised query is the trimmed input lower-cased: each of its
      characters is the lower-cased character of the input at the same
      place after the leading white space. */
  lemma NormalisedAt(input: string)
    ensures var i := |input| - |TrimStart(input)|; var q := NormaliseQuery(input);
      i + |q| <= |input| && forall j :: 0 <= j < |q| ==> q[j] == LowerChar(input[i + j])
  {
  }

  /** The test at script.js:171 as it is written. In the regular expression
      literal `/^\\d+$/` the pair `\\` stands for one backslash character,
      so the pattern accepts a backslash followed by one or more letters
      `d`, and no string of digits. */
  predicate MatchesLiteralPattern(q: string)
  {
    |q| >= 2 && q[0] == '\\' && forall i :: 1 <= i < |q| ==> q[i] == 'd'
  }

  /** Which numeric test the resolver applies: the one written in the
      source, or the all-digits test `/^\d+$/` it evidently means. */
  datatype DigitTest = AsWritten | Intended

  predicate IsNumericQuery(test: DigitTest, q: string) {
    match test
    case AsWritten => MatchesLiteralPattern(q)
    case Intended => IsAllDigits(q)
  }

  /** The restricted id range [387, 493]. */
  predicate InRange(id: int) {
    START_ID <= id <= END_ID
  }

  /** `names.find(n => n.includes(q))`, as a position: the first name that
      contains the query, or -1. */
  function FirstContaining(names: seq<string>, q: string): (i: int)
    ensures -1 <= i < |names|
    ensures i >= 0 ==> Contains(names[i], q) && forall j :: 0 <= j < i ==> !Contains(names[j], q)
    ensures i < 0 <==> forall j :: 0 <= j < |names| ==> !Contains(names[j], q)
  {
    FindIndex(names, (n: string) => Contains(n, q))
  }

  /** The key a query of at least three characters resolves to
      (script.js:170-179): in the numeric branch an id within the range,
      otherwise the query itself when it is a catalog name, otherwise the
      first catalog name containing it; `None` when nothing matches. */
  function Resolve(test: DigitTest, q: string, names: seq<string>): (key: Option<Key>)
    requires |q| >= MIN_QUERY_LENGTH
    ensures key.Some? && key.value.IdKey? ==>
      IsNumericQuery(test, q) && InRange(key.value.id) && ParseDecimal(q) == Some(key.value.id as nat)
    ensures key.Some? && key.value.NameKey? ==>
      !IsNumericQuery(test, q) && key.value.name in names && Contains(key.value.name, q)
  {
    if IsNumericQuery(test, q) then
      match ParseDecimal(q)
      case Some(id) => if InRange(id) then Some(IdKey(id)) else None
      case None => None
    else if q in names then Some(NameKey(q))
    else
      var i := FirstContaining(names, q);
      if i >= 0 then Some(NameKey(names[i])) else None
  }

  /** The resolution order: a numeric query resolves only to its own value
      and only inside the range; otherwise an exact name wins over any
      name that merely contains the query; otherwise the first containing
      name in list order is taken; otherwise there is no match. */
  lemma ResolutionOrder(test: DigitTest, q: string, names: seq<string>)
    requires |q| >= MIN_QUERY_LENGTH
    ensures IsNumericQuery(test, q) ==>
      (Resolve(test, q, names).Some? <==> ParseDecimal(q).Some? && InRange(ParseDecimal(q).value))
    ensures !IsNumericQuery(test, q) && q in names ==> Resolve(test, q, names) == Some(NameKey(q))
    ensures !IsNumericQuery(test, q) && q !in names ==>
      (Resolve(test, q, names).None? <==> forall j :: 0 <= j < |names| ==> !Contains(names[j], q))
    ensures !IsNumericQuery(test, q) && q !in names ==>
      forall i :: 0 <= i < |names| && Contains(names[i], q) && (forall j :: 0 <= j < i ==> !Contains(names[j], q)) ==>
        Resolve(test, q, names) == Some(NameKey(names[i]))
  {
  }

  /** A string the literal pattern accepts is never a number: it is not all
      digits and does not parse as a decimal. */
  lemma LiteralPatternIsNeverANumber(q: string)
    ensures MatchesLiteralPattern(q) ==> |q| >= 2 && !IsAllDigits(q) && ParseDecimal(q) == None
  {
  }

  /** As written, no query takes the numeric branch and resolves there:
      a string accepted by the literal pattern starts with a backslash, so
      `Number(q)` is NaN; every key found is a catalog name. */
  lemma AsWrittenResolvesOnlyNames(q: string, names: seq<string>)
    requires |q| >= MIN_QUERY_LENGTH
    ensures Resolve(AsWritten, q, names).Some? ==> Resolve(AsWritten, q, names).value.NameKey?
    ensures Resolve(AsWritten, q, names).Some? ==> |names| > 0
  {
  }

  /** As written, the query "387" fails the numeric test and resolves to
      nothing unless some catalog name happens to contain the text "387". */
  lemma AsWrittenMissesDigitQuery(names: seq<string>)
    requires forall j :: 0 <= j < |names| ==> !Contains(names[j], "387")
    ensures !MatchesLiteralPattern("387")
    ensures Resolve(AsWritten, "387", names) == None
  {
  }

  /** With the intended test every id of the range, written in decimal,
      resolves to that id whatever the catalog holds. */
  lemma {:induction false} IntendedResolvesEveryRangeId(id: nat, names: seq<string>)
    requires InRange(id)
    ensures |NatToString(id)| >= MIN_QUERY_LENGTH
    ensures Resolve(Intended, NatToString(id), names) == Some(IdKey(id))
  {
    DecimalRoundTrip(id);
  }

  /** With the intended test the ids just outside the range do not resolve. */
  lemma IntendedRejectsNeighbours(names: seq<string>)
    ensures Resolve(Intended, "386", names) == None
    ensures Resolve(Intended, "494", names) == None
  {
    DecimalRoundTrip(386);
    DecimalRoundTrip(494);
    assert NatToString(386) == "386";
    assert NatToString(494) == "494";
  }
}
