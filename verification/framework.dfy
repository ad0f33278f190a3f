/**
 * The slice of the Terraform plugin framework that the provider's logic
 * depends on: tri-state attribute values, diagnostics and Go errors.
 */
module Framework {
  import opened Wrappers

  /**
   * A framework attribute value (`types.String`, `types.Int64`, ...).
   * Equality is structural, as Go's `!=` on these structs is.
   */
  datatype Value<+T> = Null | Unknown | Known(v: T)

  /** `ValueString()`: the empty string for a null or unknown value. */
  function ValueString(x: Value<string>): string
  {
    if x.Known? then x.v else ""
  }

  /** `ValueInt64()`: zero for a null or unknown value. */
  function ValueInt64(x: Value<int>): int
  {
    if x.Known? then x.v else 0
  }

  /** `ValueBool()`: false for a null or unknown value. */
  function ValueBool(x: Value<bool>): bool
  {
    x.Known? && x.v
  }

  /**
   * `types.String.String()`, which formats with `%q`: a known value is
   * rendered as a Go quoted string literal, null and unknown values as
   * `<null>` and `<unknown>`.
   */
  function StringRender(x: Value<string>): string
  {
    match x
    case Null => "<null>"
    case Unknown => "<unknown>"
    case Known(s) => "\"" + Quote(s) + "\""
  }

  /** Lower-case hex digit of `n`, as `strconv` writes it. */
  function HexDigit(n: int): char
    requires 0 <= n < 16
  {
    "0123456789abcdef"[n]
  }

  function HexValue(ch: char): Option<int>
  {
    if '0' <= ch <= '9' then Some(ch as int - '0' as int)
    else if 'a' <= ch <= 'f' then Some(ch as int - 'a' as int + 10)
    else None
  }

  /**
   * How `strconv.Quote` writes one character: the quote and the backslash
   * are escaped, the seven C control characters get their letter escape,
   * the other ASCII control characters (and DEL) `\x` and two hex digits;
   * everything else is kept.
   */
  function QuoteChar(ch: char): (r: string)
    ensures |r| > 0 && r[0] != '"'
    ensures ch != '\\' ==> r[0] == '\\' || r == [ch]
  {
    var n := ch as int;
    if ch == '"' || ch == '\\' then ['\\', ch]
    else if n == 7 then "\\a"
    else if n == 8 then "\\b"
    else if n == 12 then "\\f"
    else if ch == '\n' then "\\n"
    else if ch == '\r' then "\\r"
    else if ch == '\t' then "\\t"
    else if n == 11 then "\\v"
    else if n < 0x20 || n == 0x7f then ['\\', 'x', HexDigit(n / 16), HexDigit(n % 16)]
    else [ch]
  }

  /** The body of `strconv.Quote(s)`, without the surrounding quotes. */
  function Quote(s: string): (r: string)
    ensures |r| >= |s|
    ensures forall i :: 0 <= i < |r| ==> r[i] != '"' || (i > 0 && r[i - 1] == '\\')
  {
    if |s| == 0 then ""
    else
      var head := QuoteChar(s[0]);
      var tail := Quote(s[1..]);
      assert forall i :: |head| <= i < |head + tail| ==> (head + tail)[i] == tail[i - |head|];
      head + tail
  }

  /**
   * `strconv.Unquote` restricted to the escapes `Quote` writes: the
   * inverse used to state that rendering keeps the whole value.
   */
  function Unquote(r: string): Option<string>
    decreases |r|
  {
    if |r| == 0 then Some("")
    else if r[0] == '"' then None
    else if r[0] != '\\' then
      match Unquote(r[1..])
      case None => None
      case Some(t) => Some([r[0]] + t)
    else if |r| < 2 then None
    else
      var e := r[1];
      var single :=
        if e == '"' || e == '\\' then Some(e)
        else if e == 'a' then Some(7 as char)
        else if e == 'b' then Some(8 as char)
        else if e == 'f' then Some(12 as char)
        else if e == 'n' then Some('\n')
        else if e == 'r' then Some('\r')
        else if e == 't' then Some('\t')
        else if e == 'v' then Some(11 as char)
        else None;
      if single.Some? then
        match Unquote(r[2..])
        case None => None
        case Some(t) => Some([single.value] + t)
      else if e == 'x' && |r| >= 4 && HexValue(r[2]).Some? && HexValue(r[3]).Some? then
        match Unquote(r[4..])
        case None => None
        case Some(t) => Some([(HexValue(r[2]).value * 16 + HexValue(r[3]).value) as char] + t)
      else None
  }

  lemma HexRoundTrip(n: int)
    requires 0 <= n < 16
    ensures HexValue(HexDigit(n)) == Some(n)
  {
  }

  /** Unquoting one quoted character and then the rest gives the character back in front. */
  lemma UnquoteChar(ch: char, rest: string)
    ensures Unquote(QuoteChar(ch) + rest) == match Unquote(rest) case None => None case Some(t) => Some([ch] + t)
  {
    var q := QuoteChar(ch);
    var n := ch as int;
    if n < 0x20 || n == 0x7f {
      if n != 7 && n != 8 && n != 12 && ch != '\n' && ch != '\r' && ch != '\t' && n != 11 {
        HexRoundTrip(n / 16);
        HexRoundTrip(n % 16);
        assert (q + rest)[4..] == rest;
      } else {
        assert (q + rest)[2..] == rest;
      }
    } else if ch == '"' || ch == '\\' {
      assert (q + rest)[2..] == rest;
    } else {
      assert (q + rest)[1..] == rest;
    }
  }

  /** `strconv.Unquote` inverts `strconv.Quote`: the rendered text determines the value. */
  lemma {:induction false} QuoteRoundTrip(s: string)
    ensures Unquote(Quote(s)) == Some(s)
  {
    if |s| > 0 {
      QuoteRoundTrip(s[1..]);
      UnquoteChar(s[0], Quote(s[1..]));
      assert [s[0]] + s[1..] == s;
    }
  }

  /**
   * A rendered string is `<null>`, `<unknown>` or starts with a quote, and
   * it starts with a quote exactly when the value is known.
   */
  lemma RenderedShape(x: Value<string>)
    ensures var k := StringRender(x);
      && (k == "<null>" || k == "<unknown>" || (|k| > 0 && k[0] == '"'))
      && |k| > 0 && (x.Known? <==> k[0] == '"')
  {
  }

  /** Distinct known values render to distinct keys, and a known value never renders like null or unknown. */
  lemma StringRenderInjective(x: Value<string>, y: Value<string>)
    requires StringRender(x) == StringRender(y)
    ensures x == y
  {
    if x.Known? && y.Known? {
      var rs := StringRender(x);
      assert rs[1..|rs| - 1] == Quote(x.v);
      assert rs[1..|rs| - 1] == Quote(y.v);
      QuoteRoundTrip(x.v);
      QuoteRoundTrip(y.v);
    } else if x.Known? || y.Known? {
      RenderedShape(x);
      RenderedShape(y);
    }
  }


  datatype Severity = Warning | Error

  /** One entry of `diag.Diagnostics`. */
  datatype Diagnostic = Diagnostic(severity: Severity, summary: string, detail: string)

  function ErrorDiag(summary: string, detail: string): Diagnostic
  {
    Diagnostic(Error, summary, detail)
  }

  function WarningDiag(summary: string, detail: string): Diagnostic
  {
    Diagnostic(Warning, summary, detail)
  }

  /** `diags.HasError()`. */
  predicate HasError(ds: seq<Diagnostic>)
  {
    exists i | 0 <= i < |ds| :: ds[i].severity == Error
  }

  /** The number of error-severity entries. */
  function ErrorCount(ds: seq<Diagnostic>): (n: nat)
    ensures n <= |ds|
    ensures n == 0 <==> !HasError(ds)
  {
    if |ds| == 0 then 0
    else
      assert HasError(ds) <==> ds[0].severity == Error || HasError(ds[1..]) by {
        if HasError(ds) && ds[0].severity != Error {
          var i :| 0 <= i < |ds| && ds[i].severity == Error;
          assert ds[1..][i - 1] == ds[i];
        }
        if HasError(ds[1..]) {
          var i :| 0 <= i < |ds[1..]| && ds[1..][i].severity == Error;
          assert ds[i + 1] == ds[1..][i];
        }
      }
      (if ds[0].severity == Error then 1 else 0) + ErrorCount(ds[1..])
  }

  lemma ErrorCountAppend(a: seq<Diagnostic>, b: seq<Diagnostic>)
    ensures ErrorCount(a + b) == ErrorCount(a) + ErrorCount(b)
  {
    if |a| > 0 {
      assert (a + b)[1..] == a[1..] + b;
      ErrorCountAppend(a[1..], b);
    } else {
      assert a + b == b;
    }
  }

  lemma HasErrorAppend(a: seq<Diagnostic>, b: seq<Diagnostic>)
    ensures HasError(a + b) <==> HasError(a) || HasError(b)
  {
    ErrorCountAppend(a, b);
  }

  /** A Go `error` value, identified by its message. */
  datatype Fault = Fault(message: string)

  /** `fmt.Errorf("%w: %w", outer, inner)`: the messages joined by a colon. */
  function Wrap(outer: Fault, inner: string): Fault
  {
    Fault(outer.message + ": " + inner)
  }
}
