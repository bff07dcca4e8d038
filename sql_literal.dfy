/** `escape_sql`: how the Load stage renders one JSON value as a literal of
    the generated SQL text. A string is written as a character-string literal
    in the form of ISO/IEC 9075-2, subclause 5.3 `<literal>`: between single
    quotes, with each embedded quote doubled. */
module SqlLiteral {
  import opened Collections
  import opened Json

  /** Python's `str()` of a float, a list or a dict: library formatting,
      passed in. */
  type PyStr = Value -> string

  /** What Python's `str()` writes for a float (a numeral, `inf` or `nan`)
      is never the bare word `NULL`. Floats are the only values `escape_sql`
      writes unquoted through `str()`. */
  ghost predicate NeverNull(pyStr: PyStr)
  {
    forall v: Value :: v.Number? ==> pyStr(v) != "NULL"
  }

  function Digit(d: nat): char
    requires d < 10
  {
    "0123456789"[d]
  }

  /** The decimal digits of `n`, most significant first. */
  function Digits(n: nat): (r: string)
    ensures |r| > 0
    ensures forall i :: 0 <= i < |r| ==> '0' <= r[i] <= '9'
  {
    if n < 10 then [Digit(n)] else Digits(n / 10) + [Digit(n % 10)]
  }

  /** Python's `str()` of an int: a sign for negatives, then the digits. */
  function IntText(i: int): (r: string)
    ensures |r| > 0 && (r[0] == '-' || '0' <= r[0] <= '9')
    ensures (r[0] == '-') <==> i < 0
  {
    if i < 0 then "-" + Digits(-i) else Digits(i)
  }

  /** `s.replace("'", "''")`. */
  function Doubled(s: string): string
  {
    if s == [] then []
    else (if s[0] == '\'' then "''" else [s[0]]) + Doubled(s[1..])
  }

  function Quote(s: string): string
  {
    "'" + Doubled(s) + "'"
  }

  /** `escape_sql(value)`. Because a Python bool is an int, booleans pass the
      numeric test first and are written `True` / `False`; the source's later
      `'1' if value else '0'` branch is never reached and has no case here.
      Any other value is written as a quoted literal of its `str()`. */
  function Escape(v: Value, pyStr: PyStr): (r: string)
    ensures r == "NULL" <==> v.Null? || (v.Number? && pyStr(v) == "NULL")
  {
    match v
    case Null => "NULL"
    case Bool(b) => if b then "True" else "False"
    case Int(i) => IntText(i)
    case Number(_) => pyStr(v)
    case Str(s) => QuoteShape(s); Quote(s)
    case _ => QuoteShape(pyStr(v)); Quote(pyStr(v))
  }

  /** The number of occurrences of `c` in `s`. */
  function Count(s: string, c: char): nat
  {
    if s == [] then 0 else (if s[0] == c then 1 else 0) + Count(s[1..], c)
  }

  /** Reads back the body of a character-string literal: each pair of quotes
      stands for one quote; a lone quote means the text is not such a body. */
  function Undoubled(t: string): Option<string>
  {
    if t == [] then Some([])
    else if t[0] != '\'' then
      match Undoubled(t[1..])
      case None => None
      case Some(rest) => Some([t[0]] + rest)
    else if |t| >= 2 && t[1] == '\'' then
      match Undoubled(t[2..])
      case None => None
      case Some(rest) => Some("'" + rest)
    else None
  }

  /** Reads back a character-string literal: strips the outer quotes and
      undoubles the body. */
  function Unquote(t: string): Option<string>
  {
    if |t| >= 2 && t[0] == '\'' && t[|t| - 1] == '\'' then Undoubled(t[1..|t| - 1])
    else None
  }

  lemma {:induction false} UndoubledDoubled(s: string)
    ensures Undoubled(Doubled(s)) == Some(s)
  {
    if s != [] {
      UndoubledDoubled(s[1..]);
      var t := Doubled(s);
      if s[0] == '\'' {
        assert t[2..] == Doubled(s[1..]);
      } else {
        assert t[1..] == Doubled(s[1..]);
      }
      assert s == [s[0]] + s[1..];
    }
  }

  /** The converse: a body that reads back to `s` is exactly the doubled form
      of `s`, so a body has one reading and no lone quote. */
  lemma {:induction false} DoubledUndoubled(t: string)
    requires Undoubled(t).Some?
    ensures Doubled(Undoubled(t).value) == t
  {
    if t != [] {
      var s := Undoubled(t).value;
      if t[0] != '\'' {
        DoubledUndoubled(t[1..]);
        assert s == [t[0]] + Undoubled(t[1..]).value;
        assert s[1..] == Undoubled(t[1..]).value;
        assert t == [t[0]] + t[1..];
      } else {
        DoubledUndoubled(t[2..]);
        assert s == "'" + Undoubled(t[2..]).value;
        assert s[1..] == Undoubled(t[2..]).value;
        assert t == "''" + t[2..];
      }
    }
  }

  /** The quoting round trip: strip the outer quotes, replace `''` by `'`, and
      the original string comes back. */
  lemma UnquoteQuote(s: string)
    ensures Unquote(Quote(s)) == Some(s)
  {
    var q := Quote(s);
    assert q[1..|q| - 1] == Doubled(s);
    UndoubledDoubled(s);
  }

  /** Only quoted text reads back, and it reads back to one string only: two
      strings with the same literal are equal. */
  lemma QuoteInjective(s: string, s': string)
    requires Quote(s) == Quote(s')
    ensures s == s'
  {
    UnquoteQuote(s);
    UnquoteQuote(s');
  }

  lemma {:induction false} DoubledLength(s: string)
    ensures |Doubled(s)| == |s| + Count(s, '\'')
  {
    if s != [] {
      DoubledLength(s[1..]);
    }
  }

  /** A quoted literal starts and ends with a quote and is two characters
      longer than its text plus one for every embedded quote. */
  lemma QuoteShape(s: string)
    ensures |Quote(s)| == |s| + 2 + Count(s, '\'')
    ensures Quote(s)[0] == '\'' && Quote(s)[|Quote(s)| - 1] == '\''
  {
    DoubledLength(s);
  }

  /** A text without quotes is written unchanged between quotes, as the
      UniqueName paths of the API are. */
  lemma QuotePlain(s: string)
    requires forall i :: 0 <= i < |s| ==> s[i] != '\''
    ensures Quote(s) == "'" + s + "'"
  {
    DoubledNoQuote(s);
  }

  lemma {:induction false} DoubledNoQuote(s: string)
    requires forall i :: 0 <= i < |s| ==> s[i] != '\''
    ensures Doubled(s) == s
  {
    if s != [] {
      DoubledNoQuote(s[1..]);
      assert s == [s[0]] + s[1..];
    }
  }

  /** What `escape_sql` writes for each kind of value: `NULL` for null;
      `True` / `False` for booleans, never `1` / `0`; the decimal text of an
      integer; and for a string a quoted literal that reads back to it. */
  lemma EscapeCases(v: Value, pyStr: PyStr)
    ensures v.Null? ==> Escape(v, pyStr) == "NULL"
    ensures v.Bool? ==> Escape(v, pyStr) == (if v.b then "True" else "False")
    ensures v.Bool? ==> Escape(v, pyStr) != "1" && Escape(v, pyStr) != "0"
    ensures v.Int? ==> Escape(v, pyStr) == IntText(v.i)
    ensures v.Str? ==> Escape(v, pyStr) == Quote(v.s) && Unquote(Escape(v, pyStr)) == Some(v.s)
  {
    if v.Str? {
      UnquoteQuote(v.s);
    }
  }
}
