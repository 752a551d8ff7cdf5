/**
 * The request a switch sends to write one setup field
 * (custom_components/mypv/switch.py, lines 135-136 and 147-148):
 * `http://<host>/setup.jsn?<field>=<value>`, with the value written in
 * decimal as Python formats an int. A parser for such URLs is the partner
 * that shows the URL carries exactly the host, field and value it was built from.
 */
module SetupRequests {
  import opened Wrappers

  /** The three parts of a setup write request. */
  datatype SetupRequest = SetupRequest(host: string, field: string, value: nat)

  const Scheme := "http://"
  const SetupPath := "/setup.jsn"

  predicate IsDigit(c: char)
  {
    '0' <= c <= '9'
  }

  function DigitChar(d: nat): (c: char)
    requires d < 10
    ensures IsDigit(c) && c as int - '0' as int == d
  {
    ('0' as int + d) as char
  }

  /** Decimal digits of `n` without leading zeros, as Python's `str` writes a non-negative int. */
  function Decimal(n: nat): (s: string)
    ensures |s| >= 1
    ensures forall i :: 0 <= i < |s| ==> IsDigit(s[i])
    ensures |s| > 1 ==> s[0] != '0'
  {
    if n < 10 then [DigitChar(n)] else Decimal(n / 10) + [DigitChar(n % 10)]
  }

  /** The number a non-empty string of decimal digits denotes; None for anything else. */
  function ParseDecimal(s: string): (r: Option<nat>)
    ensures r.Some? <==> |s| >= 1 && forall i :: 0 <= i < |s| ==> IsDigit(s[i])
  {
    if |s| == 0 || !IsDigit(s[|s| - 1]) then None
    else if |s| == 1 then Some(s[0] as int - '0' as int)
    else match ParseDecimal(s[..|s| - 1])
      case None => None
      case Some(m) => Some(10 * m + (s[|s| - 1] as int - '0' as int))
  }

  lemma {:induction false} DecimalRoundTrip(n: nat)
    ensures ParseDecimal(Decimal(n)) == Some(n)
  {
    if n >= 10 {
      var s := Decimal(n);
      assert s[..|s| - 1] == Decimal(n / 10);
      DecimalRoundTrip(n / 10);
    }
  }

  /**
   * Splits `s` at its last occurrence of `c`: the part before and the part
   * after, which holds no `c`. None when `c` does not occur.
   */
  function SplitLast(s: string, c: char): (r: Option<(string, string)>)
    ensures r.Some? ==> s == r.value.0 + [c] + r.value.1 && c !in r.value.1
    ensures r.None? ==> c !in s
  {
    if |s| == 0 then None
    else if s[|s| - 1] == c then Some((s[..|s| - 1], []))
    else match SplitLast(s[..|s| - 1], c)
      case None => None
      case Some(parts) => Some((parts.0, parts.1 + [s[|s| - 1]]))
  }

  /** The split is determined: any decomposition around a last `c` is the one SplitLast finds. */
  lemma {:induction false} SplitLastOf(a: string, c: char, b: string)
    requires c !in b
    ensures SplitLast(a + [c] + b, c) == Some((a, b))
  {
    var s := a + [c] + b;
    if b == [] {
      assert s[..|s| - 1] == a;
    } else {
      var b0 := b[..|b| - 1];
      assert s[..|s| - 1] == a + [c] + b0;
      SplitLastOf(a, c, b0);
      assert b0 + [b[|b| - 1]] == b;
    }
  }

  /** The URL the switch requests to set `field` to `value` on the device at `host`. */
  function SetupUrl(host: string, field: string, value: nat): (url: string)
    ensures |url| == |Scheme| + |host| + |SetupPath| + 1 + |field| + 1 + |Decimal(value)|
    ensures url[..|Scheme| + |host| + |SetupPath| + 1] == Scheme + host + SetupPath + "?"
    ensures url[|url| - |Decimal(value)| - 1 - |field|..|url| - |Decimal(value)| - 1] == field
    ensures url[|url| - |Decimal(value)| - 1..] == "=" + Decimal(value)
  {
    Scheme + host + SetupPath + "?" + field + "=" + Decimal(value)
  }

  /** Reads host, field and value back from a setup write URL, scanning from the right. */
  function ParseSetupUrl(url: string): Option<SetupRequest>
  {
    match SplitLast(url, '=')
    case None => None
    case Some(query) =>
      match ParseDecimal(query.1)
      case None => None
      case Some(value) =>
        match SplitLast(query.0, '?')
        case None => None
        case Some(path) =>
          var base := path.0;
          if |base| >= |Scheme| + |SetupPath| && base[..|Scheme|] == Scheme
             && base[|base| - |SetupPath|..] == SetupPath
          then Some(SetupRequest(base[|Scheme|..|base| - |SetupPath|], path.1, value))
          else None
  }

  /**
   * A setup URL names the host, field and value it was built from, for any
   * host and any field that holds neither '?' nor '='.
   */
  lemma SetupUrlRoundTrip(host: string, field: string, value: nat)
    requires '?' !in field && '=' !in field
    ensures ParseSetupUrl(SetupUrl(host, field, value)) == Some(SetupRequest(host, field, value))
  {
    var digits := Decimal(value);
    var base := Scheme + host + SetupPath;
    var front := base + "?" + field;
    assert SetupUrl(host, field, value) == front + ['='] + digits;
    SplitLastOf(front, '=', digits);
    DecimalRoundTrip(value);
    assert front == base + ['?'] + field;
    SplitLastOf(base, '?', field);
    assert base[..|Scheme|] == Scheme;
    assert base[|base| - |SetupPath|..] == SetupPath;
    assert base[|Scheme|..|base| - |SetupPath|] == host;
  }
}
