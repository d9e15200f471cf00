/** The printed key of the machine router's service directory: it is injective, whatever the service name holds. */
module IdString {

  // ---------- printed integers ----------

  function Digit(d: nat): char
    requires d < 10
  {
    ['0', '1', '2', '3', '4', '5', '6', '7', '8', '9'][d]
  }

  function Digits(n: nat): string {
    if n < 10 then [Digit(n)] else Digits(n / 10) + [Digit(n % 10)]
  }

  /** VB's conversion of an integer to a string. */
  function IntString(n: int): string {
    if n < 0 then "-" + Digits(-n) else Digits(n)
  }

  function DigitValue(c: char): int {
    c as int - '0' as int
  }

  function ParseDigits(s: string): int {
    if s == "" then 0 else 10 * ParseDigits(s[..|s| - 1]) + DigitValue(s[|s| - 1])
  }

  function ParseInt(s: string): int {
    if s != "" && s[0] == '-' then -ParseDigits(s[1..]) else ParseDigits(s)
  }

  predicate IsDigit(c: char) {
    '0' <= c <= '9'
  }

  lemma {:induction false} ParseOfDigits(n: nat)
    ensures ParseDigits(Digits(n)) == n && Digits(n) != ""
    ensures forall c | c in Digits(n) :: IsDigit(c)
  {
    if n < 10 {
      assert Digits(n)[..0] == "";
    } else {
      ParseOfDigits(n / 10);
      var s := Digits(n);
      assert s[..|s| - 1] == Digits(n / 10);
    }
  }

  lemma ParseSigned(digits: string)
    requires digits != "" && forall c | c in digits :: IsDigit(c)
    ensures ParseInt(digits) == ParseDigits(digits) && ParseInt("-" + digits) == -ParseDigits(digits)
    ensures forall c | c in "-" + digits :: IsDigit(c) || c == '-'
  {
    assert digits[0] in digits;
    assert ("-" + digits)[1..] == digits;
  }

  lemma ParseOfInt(n: int)
    ensures ParseInt(IntString(n)) == n
    ensures forall c | c in IntString(n) :: IsDigit(c) || c == '-'
  {
    var size := if n < 0 then -n else n;
    ParseOfDigits(size);
    ParseSigned(Digits(size));
  }

  // ---------- splitting at a separator ----------

  predicate Without(s: string, c: char) {
    forall i | 0 <= i < |s| :: s[i] != c
  }

  /** A text is cut in one way only at a separator that does not occur after the cut. */
  lemma LastCutUnique(s: string, t: string, s': string, t': string, c: char)
    requires s + [c] + t == s' + [c] + t' && Without(t, c) && Without(t', c)
    ensures s == s' && t == t'
  {
    var whole := s + [c] + t;
    assert whole[|s|] == c && whole[|s'|] == c;
    assert forall i | |s| < i < |whole| :: whole[i] == t[i - |s| - 1];
    assert forall i | |s'| < i < |whole| :: whole[i] == t'[i - |s'| - 1];
    assert |s| == |s'|;
    assert s == whole[..|s|] && t == whole[|s| + 1..];
  }

  // ---------- the key ----------

  datatype Key = Key(service: string, machineId: int, routerId: int, agentId: int)

  function AddressString(k: Key): string {
    IntString(k.machineId) + "," + IntString(k.routerId) + "," + IntString(k.agentId) + ">"
  }

  function DirectoryEntryIDString(k: Key): string {
    k.service + "<" + AddressString(k)
  }

  lemma IntStringWithout(n: int, c: char)
    requires !IsDigit(c) && c != '-'
    ensures Without(IntString(n), c)
  {
    ParseOfInt(n);
  }

  lemma AddressStringInjective(k: Key, l: Key)
    requires AddressString(k) == AddressString(l)
    ensures k.machineId == l.machineId && k.routerId == l.routerId && k.agentId == l.agentId
  {
    var km, kr, ka := IntString(k.machineId), IntString(k.routerId), IntString(k.agentId);
    var lm, lr, la := IntString(l.machineId), IntString(l.routerId), IntString(l.agentId);
    IntStringWithout(k.agentId, ',');
    IntStringWithout(l.agentId, ',');
    IntStringWithout(k.routerId, ',');
    IntStringWithout(l.routerId, ',');
    CutAll(km, kr, ka, lm, lr, la);
    ParseOfInt(k.machineId);
    ParseOfInt(k.routerId);
    ParseOfInt(k.agentId);
    ParseOfInt(l.machineId);
    ParseOfInt(l.routerId);
    ParseOfInt(l.agentId);
  }

  lemma CutAll(a: string, b: string, c: string, a': string, b': string, c': string)
    requires a + "," + b + "," + c + ">" == a' + "," + b' + "," + c' + ">"
    requires Without(b, ',') && Without(c, ',') && Without(b', ',') && Without(c', ',')
    ensures a == a' && b == b' && c == c'
  {
    var p, q := a + "," + b + "," + c, a' + "," + b' + "," + c';
    assert (p + ">")[..|p|] == p && (q + ">")[..|q|] == q;
    assert p == q;
    LastCutUnique(a + "," + b, c, a' + "," + b', c', ',');
    LastCutUnique(a, b, a', b', ',');
  }

  lemma AddressStringWithout(k: Key)
    ensures Without(AddressString(k), '<')
  {
    IntStringWithout(k.machineId, '<');
    IntStringWithout(k.routerId, '<');
    IntStringWithout(k.agentId, '<');
  }

  /** Two entries share a printed key exactly when they are for the same service at the same address. */
  lemma KeyInjective(k: Key, l: Key)
    ensures DirectoryEntryIDString(k) == DirectoryEntryIDString(l) <==> k == l
  {
    if DirectoryEntryIDString(k) == DirectoryEntryIDString(l) {
      AddressStringWithout(k);
      AddressStringWithout(l);
      LastCutUnique(k.service, AddressString(k), l.service, AddressString(l), '<');
      AddressStringInjective(k, l);
    }
  }
}
