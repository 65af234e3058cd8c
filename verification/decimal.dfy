/** Text keys built from decimal numbers and separators: strconv.Itoa, strconv.FormatInt, "%d:%s"
    and the key builders that use them. */
module Keys {

  function Digit(d: nat): (c: char)
    requires d < 10
  {
    ['0', '1', '2', '3', '4', '5', '6', '7', '8', '9'][d]
  }

  function Natural(n: nat): string {
    if n < 10 then [Digit(n)] else Natural(n / 10) + [Digit(n % 10)]
  }

  /** strconv.Itoa, and the verb %d. */
  function Decimal(n: int): string {
    if n < 0 then ['-'] + Natural(-n) else Natural(n)
  }

  function DigitValue(c: char): int { c as int - '0' as int }

  /** The number a digit string denotes. */
  function ParseNatural(s: string): int {
    if s == [] then 0 else 10 * ParseNatural(s[..|s| - 1]) + DigitValue(s[|s| - 1])
  }

  function ParseDecimal(s: string): int {
    if s != [] && s[0] == '-' then -ParseNatural(s[1..]) else ParseNatural(s)
  }

  lemma DigitChars(d: nat)
    requires d < 10
    ensures '0' <= Digit(d) <= '9' && DigitValue(Digit(d)) == d && (Digit(d) == '0' <==> d == 0)
  {
  }

  lemma {:induction false} NaturalRoundTrip(n: nat)
    ensures ParseNatural(Natural(n)) == n
    ensures Natural(n) != [] && forall i :: 0 <= i < |Natural(n)| ==> '0' <= Natural(n)[i] <= '9'
  {
    hide Digit, DigitValue;
    DigitChars(n % 10);
    if n < 10 {
      assert ParseNatural([]) == 0;
      assert [Digit(n)][..0] == [];
    } else {
      NaturalRoundTrip(n / 10);
      assert Natural(n)[..|Natural(n)| - 1] == Natural(n / 10);
    }
  }

  /** The first digit is 0 only of 0 itself. */
  lemma {:induction false} LeadingDigit(n: nat)
    ensures Natural(n) != [] && (Natural(n)[0] == '0' <==> n == 0)
  {
    hide Digit;
    if n < 10 {
      DigitChars(n);
    } else {
      LeadingDigit(n / 10);
      assert Natural(n)[0] == Natural(n / 10)[0];
    }
  }

  /** Parsing undoes formatting; the text holds only digits, the first being 0 for 0 alone, after a minus sign if the
      number is negative. */
  lemma DecimalRoundTrip(n: int)
    ensures ParseDecimal(Decimal(n)) == n
    ensures var digits := if n < 0 then Decimal(n)[1..] else Decimal(n);
            && (n < 0 ==> Decimal(n)[0] == '-') && digits != []
            && (forall i :: 0 <= i < |digits| ==> '0' <= digits[i] <= '9')
            && (digits[0] == '0' <==> n == 0)
    ensures forall i :: 0 <= i < |Decimal(n)| ==> Decimal(n)[i] == '-' || '0' <= Decimal(n)[i] <= '9'
  {
    NaturalRoundTrip(if n < 0 then -n else n);
    LeadingDigit(if n < 0 then -n else n);
    hide Natural, ParseNatural;
    if n < 0 {
      assert Decimal(n)[1..] == Natural(-n);
    }
  }

  lemma DecimalInjective(a: int, b: int)
    requires Decimal(a) == Decimal(b)
    ensures a == b
  {
    DecimalRoundTrip(a);
    DecimalRoundTrip(b);
  }

  /** A separator that occurs in neither first part can be found again. */
  lemma SeparatorSplits(p: string, q: string, x: string, y: string, sep: char)
    requires sep !in p && sep !in q
    requires p + [sep] + x == q + [sep] + y
    ensures p == q && x == y
  {
    var s := p + [sep] + x;
    assert s[|p|] == sep && s[|q|] == sep;
    assert forall i :: 0 <= i < |p| ==> s[i] == p[i];
    assert forall i :: 0 <= i < |q| ==> s[i] == q[i];
    assert s[..|p|] == p && s[..|q|] == q;
    assert s[|p| + 1..] == x && s[|q| + 1..] == y;
  }

  /** The key of Cache.tags. */
  function TagKey(deviceId: int, tagName: string): string { Decimal(deviceId) + [':'] + tagName }

  /** The Kafka message key of a data point. */
  function RecordKey(lsid: int, ts: int): string { Decimal(lsid) + [':'] + Decimal(ts) }

  /** The key of the archive service's streams. */
  function CameraKey(camera: string, detection: string): string { camera + ['|'] + detection }

  lemma TagKeyInjective(d: int, n: string, d': int, n': string)
    requires TagKey(d, n) == TagKey(d', n')
    ensures d == d' && n == n'
  {
    DecimalRoundTrip(d);
    DecimalRoundTrip(d');
    SeparatorSplits(Decimal(d), Decimal(d'), n, n', ':');
  }

  /** The key of a record is the decimal text of its sensor, a colon, and the decimal text of its time. */
  lemma RecordKeyText(lsid: int, ts: int)
    ensures exists i :: 0 <= i < |RecordKey(lsid, ts)| && RecordKey(lsid, ts)[i] == ':'
                        && ParseDecimal(RecordKey(lsid, ts)[..i]) == lsid
                        && ParseDecimal(RecordKey(lsid, ts)[i + 1..]) == ts
  {
    DecimalRoundTrip(lsid);
    DecimalRoundTrip(ts);
    hide Decimal, ParseDecimal;
    var key, i := RecordKey(lsid, ts), |Decimal(lsid)|;
    assert key[i] == ':' && key[..i] == Decimal(lsid) && key[i + 1..] == Decimal(ts);
  }

  lemma RecordKeyInjective(l: int, t: int, l': int, t': int)
    requires RecordKey(l, t) == RecordKey(l', t')
    ensures l == l' && t == t'
  {
    DecimalRoundTrip(l);
    DecimalRoundTrip(l');
    SeparatorSplits(Decimal(l), Decimal(l'), Decimal(t), Decimal(t'), ':');
    DecimalInjective(t, t');
  }

  /** Two cameras without '|' in their names have different keys unless camera and type agree. */
  lemma CameraKeyInjective(c: string, d: string, c': string, d': string)
    requires '|' !in c && '|' !in c'
    requires CameraKey(c, d) == CameraKey(c', d')
    ensures c == c' && d == d'
  {
    SeparatorSplits(c, c', d, d', '|');
  }
}
