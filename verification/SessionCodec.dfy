/**
 The text a session is stored under, `licenseId|revision|bindingHash`, and the two ways it
 is taken apart: by the separator search inside the Lua scripts, and by the last separator
 of the `licenseId|revision` text that two of the scripts return.
 */
module SessionCodec {
  import opened Wrappers

  const MAX_SAFE_INTEGER: nat := 9_007_199_254_740_991

  /** The outcome of the scripts' two searches for `|`. */
  datatype Split = Malformed | Fields(license: string, revision: string, binding: string)

  datatype Resolved = Resolved(licenseId: string, sessionRevision: nat)

  // ---------------------------------------------------------------- decimal text

  predicate IsDigit(c: char)
  {
    '0' <= c <= '9'
  }

  function Digit(d: nat): (c: char)
    requires d < 10
    ensures IsDigit(c) && c as int - '0' as int == d
  {
    ('0' as int + d) as char
  }

  /** `String(n)` of a non-negative integer. */
  function Decimal(n: nat): (s: string)
    ensures s != [] && forall i | 0 <= i < |s| :: IsDigit(s[i])
  {
    if n < 10 then [Digit(n)] else Decimal(n / 10) + [Digit(n % 10)]
  }

  /** `tonumber` and `Number` on decimal text. */
  function ParseDecimal(s: string): Option<nat>
  {
    if s == [] || !IsDigit(s[|s| - 1]) then None
    else
      var last := s[|s| - 1] as int - '0' as int;
      if |s| == 1 then Some(last)
      else
        match ParseDecimal(s[..|s| - 1])
        case None => None
        case Some(front) => Some(10 * front + last)
  }

  lemma {:induction false} DecimalRoundTrip(n: nat)
    ensures ParseDecimal(Decimal(n)) == Some(n)
  {
    if n >= 10 {
      DecimalRoundTrip(n / 10);
      assert Decimal(n)[..|Decimal(n)| - 1] == Decimal(n / 10);
    }
  }

  lemma DecimalInjective(m: nat, n: nat)
    ensures Decimal(m) == Decimal(n) <==> m == n
  {
    DecimalRoundTrip(m);
    DecimalRoundTrip(n);
  }

  // ---------------------------------------------------------------- separators

  /** `string.find(value, "|", from, true)`, counting from zero. */
  function Find(value: string, from: nat): (r: Option<nat>)
    requires from <= |value|
    ensures r.Some? ==> from <= r.value < |value| && value[r.value] == '|'
    ensures r.Some? ==> forall i | from <= i < r.value :: value[i] != '|'
    ensures r.None? ==> forall i | from <= i < |value| :: value[i] != '|'
    decreases |value| - from
  {
    if from == |value| then None
    else if value[from] == '|' then Some(from)
    else Find(value, from + 1)
  }

  /** `value.lastIndexOf("|")`. */
  function FindLast(value: string): (r: Option<nat>)
    ensures r.Some? ==> r.value < |value| && value[r.value] == '|'
    ensures r.Some? ==> forall i | r.value < i < |value| :: value[i] != '|'
    ensures r.None? ==> forall i | 0 <= i < |value| :: value[i] != '|'
  {
    if value == [] then None
    else if value[|value| - 1] == '|' then Some(|value| - 1)
    else FindLast(value[..|value| - 1])
  }

  function LuaSplit(value: string): Split
  {
    match Find(value, 0)
    case None => Malformed
    case Some(first) =>
      match Find(value, first + 1)
      case None => Malformed
      case Some(second) =>
        Fields(value[..first], value[first + 1..second], value[second + 1..])
  }

  /** The value `registerSession` stores. */
  function Encode(licenseId: string, revision: nat, bindingHash: string): string
  {
    licenseId + "|" + Decimal(revision) + "|" + bindingHash
  }

  /** What refresh and remove return for a session they accept. */
  function Reply(licenseId: string, revision: string): string
  {
    licenseId + "|" + revision
  }

  /** `resolvedSession`: JavaScript's `Number("")` is 0, so an empty revision reads as 0. */
  function ResolvedSession(value: string): Option<Resolved>
  {
    match FindLast(value)
    case None => None
    case Some(separator) =>
      var text := value[separator + 1..];
      var number := if text == "" then Some(0) else ParseDecimal(text);
      if separator < 1 || number.None? || number.value > MAX_SAFE_INTEGER then None
      else Some(Resolved(value[..separator], number.value))
  }

  /** The scripts read back the three stored fields exactly for license IDs without a separator. */
  lemma SplitReadsBack(licenseId: string, revision: nat, bindingHash: string)
    ensures LuaSplit(Encode(licenseId, revision, bindingHash)) == Fields(licenseId, Decimal(revision), bindingHash)
       <==> '|' !in licenseId
  {
    var value := Encode(licenseId, revision, bindingHash);
    var digits := Decimal(revision);
    var first, second := |licenseId|, |licenseId| + 1 + |digits|;
    assert value[first] == '|' && value[second] == '|';
    assert value[..first] == licenseId;
    assert forall i | first < i < second :: value[i] == digits[i - first - 1] && IsDigit(value[i]);
    if '|' !in licenseId {
      assert forall i | 0 <= i < first :: value[i] == licenseId[i] && value[i] != '|';
      assert Find(value, 0) == Some(first);
      assert Find(value, first + 1) == Some(second);
      assert value[first + 1..second] == digits;
      assert value[second + 1..] == bindingHash;
    } else {
      var k :| 0 <= k < |licenseId| && licenseId[k] == '|';
      assert value[k] == '|';
      assert Find(value, 0).Some? && Find(value, 0).value <= k < first;
    }
  }

  /** `resolvedSession` recovers license and revision, for every license ID but the empty one. */
  lemma ReplyReadsBack(licenseId: string, revision: nat)
    ensures ResolvedSession(Reply(licenseId, Decimal(revision))) == Some(Resolved(licenseId, revision))
       <==> licenseId != "" && revision <= MAX_SAFE_INTEGER
  {
    var value := Reply(licenseId, Decimal(revision));
    var digits := Decimal(revision);
    var separator := |licenseId|;
    assert value[separator] == '|' && value[..separator] == licenseId;
    assert forall i | separator < i < |value| :: value[i] == digits[i - separator - 1] && IsDigit(value[i]);
    assert FindLast(value) == Some(separator);
    assert value[separator + 1..] == digits;
    DecimalRoundTrip(revision);
  }
}
