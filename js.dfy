/** The few JavaScript values and built-ins the checkout code relies on:
    optional arguments, thrown errors, numbers that may be NaN, truthiness of
    optional strings, and String.prototype.trim / toUpperCase. */
module Js {

  /** An optional argument or field: `undefined`/`null` is None. */
  datatype Option<+T> = None | Some(value: T)

  /** The outcome of a call that may throw: Err carries the thrown Error's message. */
  datatype Result<+T> = Ok(value: T) | Err(message: string)

  /** A JavaScript number as the handlers receive it. Infinities are not modelled. */
  datatype JsNumber = Finite(value: real) | NaN

  /** `if (x)` on an optional string: false for undefined and for "". */
  predicate Truthy(s: Option<string>)
  {
    s.Some? && s.value != ""
  }

  /** `x || fallback` on an optional string. */
  function OrElse(s: Option<string>, fallback: string): string
  {
    if Truthy(s) then s.value else fallback
  }

  /** `Math.round`: the nearest integer, halves rounded up (towards +infinity). */
  function Round(x: real): (n: int)
    ensures x - 0.5 < n as real <= x + 0.5
  {
    (x + 0.5).Floor
  }

  /** `Math.max` on two numbers that are not NaN. */
  function Max(a: real, b: real): (m: real)
    ensures m >= a && m >= b
    ensures m == a || m == b
  {
    if a >= b then a else b
  }

  // ---------------------------------------------------------------------------
  // String.prototype.trim
  // ---------------------------------------------------------------------------

  /** ECMAScript WhiteSpace and LineTerminator code points: what trim() removes. */
  predicate IsWhitespace(c: char)
  {
    || c == '\t' || c == '\n' || c == '\U{000B}' || c == '\U{000C}' || c == '\r'
    || c == ' ' || c == '\U{00A0}' || c == '\U{1680}'
    || ('\U{2000}' <= c <= '\U{200A}')
    || c == '\U{2028}' || c == '\U{2029}' || c == '\U{202F}' || c == '\U{205F}'
    || c == '\U{3000}' || c == '\U{FEFF}'
  }

  predicate AllWhitespace(s: string)
  {
    forall i :: 0 <= i < |s| ==> IsWhitespace(s[i])
  }

  /** Drops leading whitespace. */
  function TrimStart(s: string): (r: string)
    ensures |r| <= |s|
    ensures r == [] || !IsWhitespace(r[0])
    decreases |s|
  {
    if s == [] || !IsWhitespace(s[0]) then s else TrimStart(s[1..])
  }

  /** Drops trailing whitespace. */
  function TrimEnd(s: string): (r: string)
    ensures |r| <= |s|
    ensures r == [] || !IsWhitespace(r[|r| - 1])
    decreases |s|
  {
    if s == [] || !IsWhitespace(s[|s| - 1]) then s else TrimEnd(s[..|s| - 1])
  }

  function Trim(s: string): string
  {
    TrimEnd(TrimStart(s))
  }

  lemma {:induction false} TrimStartSkipsWhitespace(ws: string, s: string)
    requires AllWhitespace(ws)
    ensures TrimStart(ws + s) == TrimStart(s)
    decreases |ws|
  {
    if ws != [] {
      assert (ws + s)[0] == ws[0] && IsWhitespace(ws[0]);
      assert (ws + s)[1..] == ws[1..] + s;
      TrimStartSkipsWhitespace(ws[1..], s);
    } else {
      assert ws + s == s;
    }
  }

  lemma {:induction false} TrimEndSkipsWhitespace(s: string, ws: string)
    requires AllWhitespace(ws)
    ensures TrimEnd(s + ws) == TrimEnd(s)
    decreases |ws|
  {
    if ws != [] {
      var shorter := ws[..|ws| - 1];
      assert (s + ws)[|s + ws| - 1] == ws[|ws| - 1] && IsWhitespace(ws[|ws| - 1]);
      assert (s + ws)[..|s + ws| - 1] == s + shorter;
      TrimEndSkipsWhitespace(s, shorter);
    } else {
      assert s + ws == s;
    }
  }

  /** Once a non-whitespace character has been reached, what follows is kept as is. */
  lemma {:induction false} TrimStartAppend(s: string, t: string)
    requires TrimStart(s) != []
    ensures TrimStart(s + t) == TrimStart(s) + t
    decreases |s|
  {
    if IsWhitespace(s[0]) {
      assert (s + t)[1..] == s[1..] + t;
      TrimStartAppend(s[1..], t);
    }
  }

  lemma {:induction false} TrimStartAllWhitespace(s: string, t: string)
    requires TrimStart(s) == []
    ensures TrimStart(s + t) == TrimStart(t)
    decreases |s|
  {
    if s != [] {
      assert (s + t)[0] == s[0];
      assert (s + t)[1..] == s[1..] + t;
      TrimStartAllWhitespace(s[1..], t);
    } else {
      assert s + t == t;
    }
  }

  /** Whitespace on either side of a string does not change what trim() returns. */
  lemma TrimIgnoresPadding(before: string, s: string, after: string)
    requires AllWhitespace(before) && AllWhitespace(after)
    ensures Trim(before + s + after) == Trim(s)
  {
    assert before + s + after == before + (s + after);
    TrimStartSkipsWhitespace(before, s + after);
    if TrimStart(s) == [] {
      TrimStartAllWhitespace(s, after);
      TrimStartSkipsWhitespace(after, []);
      assert after + [] == after;
    } else {
      TrimStartAppend(s, after);
      TrimEndSkipsWhitespace(TrimStart(s), after);
    }
  }

  /** A string with no whitespace at either end is its own trimmed form. */
  lemma TrimKeepsUnpadded(s: string)
    requires s == [] || (!IsWhitespace(s[0]) && !IsWhitespace(s[|s| - 1]))
    ensures Trim(s) == s
  {
  }

  // ---------------------------------------------------------------------------
  // String.prototype.toUpperCase
  // ---------------------------------------------------------------------------

  /** The upper-case form of one character. Exact for ASCII and for every
      non-ASCII character whose upper case consists of ASCII letters only
      (sharp s, dotless i, long s and the Latin ligatures); any other
      character is kept, which may differ from JavaScript only by giving a
      different non-ASCII character. */
  function UpperOf(c: char): (r: string)
    ensures r != []
    ensures IsWhitespace(c) ==> r == [c]
    ensures !IsWhitespace(c) ==> forall i :: 0 <= i < |r| ==> !IsWhitespace(r[i])
  {
    if 'a' <= c <= 'z' then [(c as int - 32) as char]
    else if c == '\U{00DF}' then "SS"   // sharp s
    else if c == '\U{0131}' then "I"    // dotless i
    else if c == '\U{017F}' then "S"    // long s
    else if c == '\U{FB00}' then "FF"
    else if c == '\U{FB01}' then "FI"
    else if c == '\U{FB02}' then "FL"
    else if c == '\U{FB03}' then "FFI"
    else if c == '\U{FB04}' then "FFL"
    else if c == '\U{FB05}' || c == '\U{FB06}' then "ST"
    else [c]
  }

  /** Every character UpperOf produces is its own upper case. */
  lemma UpperOfFixed(c: char)
    ensures forall i :: 0 <= i < |UpperOf(c)| ==> UpperOf(UpperOf(c)[i]) == [UpperOf(c)[i]]
  {
  }

  function ToUpperCase(s: string): string
    decreases |s|
  {
    if s == [] then [] else UpperOf(s[0]) + ToUpperCase(s[1..])
  }

  lemma {:induction false} ToUpperCaseAppend(s: string, t: string)
    ensures ToUpperCase(s + t) == ToUpperCase(s) + ToUpperCase(t)
    decreases |s|
  {
    if s != [] {
      assert (s + t)[0] == s[0];
      assert (s + t)[1..] == s[1..] + t;
      ToUpperCaseAppend(s[1..], t);
      assert ToUpperCase(s + t) == UpperOf(s[0]) + (ToUpperCase(s[1..]) + ToUpperCase(t));
    } else {
      assert s + t == t;
    }
  }

  /** Upper-casing an upper-cased string changes nothing. */
  lemma {:induction false} ToUpperCaseIdempotent(s: string)
    ensures ToUpperCase(ToUpperCase(s)) == ToUpperCase(s)
    decreases |s|
  {
    if s != [] {
      var u := UpperOf(s[0]);
      ToUpperCaseAppend(u, ToUpperCase(s[1..]));
      UpperOfFixed(s[0]);
      UpperFixed(u);
      ToUpperCaseIdempotent(s[1..]);
    }
  }

  lemma {:induction false} UpperFixed(u: string)
    requires forall i :: 0 <= i < |u| ==> UpperOf(u[i]) == [u[i]]
    ensures ToUpperCase(u) == u
    decreases |u|
  {
    if u != [] {
      UpperFixed(u[1..]);
    }
  }

  lemma {:induction false} TrimStartUpper(s: string)
    ensures TrimStart(ToUpperCase(s)) == ToUpperCase(TrimStart(s))
    decreases |s|
  {
    if s != [] {
      var u := UpperOf(s[0]);
      if IsWhitespace(s[0]) {
        assert ToUpperCase(s) == [s[0]] + ToUpperCase(s[1..]);
        TrimStartSkipsWhitespace([s[0]], ToUpperCase(s[1..]));
        TrimStartUpper(s[1..]);
      } else {
        assert ToUpperCase(s)[0] == u[0];
      }
    }
  }

  lemma {:induction false} TrimEndUpper(s: string)
    ensures TrimEnd(ToUpperCase(s)) == ToUpperCase(TrimEnd(s))
    decreases |s|
  {
    if s != [] {
      var init, last := s[..|s| - 1], s[|s| - 1];
      assert s == init + [last];
      ToUpperCaseAppend(init, [last]);
      assert ToUpperCase([last]) == UpperOf(last);
      if IsWhitespace(last) {
        TrimEndSkipsWhitespace(ToUpperCase(init), [last]);
        TrimEndUpper(init);
      } else {
        var up := ToUpperCase(s);
        assert up[|up| - 1] == UpperOf(last)[|UpperOf(last)| - 1];
      }
    }
  }

  /** Trimming and upper-casing commute. */
  lemma TrimUpperCommute(s: string)
    ensures Trim(ToUpperCase(s)) == ToUpperCase(Trim(s))
  {
    TrimStartUpper(s);
    TrimEndUpper(TrimStart(s));
  }

  /** Strings of upper-case ASCII letters only. */
  predicate UpperAscii(u: string)
  {
    forall i :: 0 <= i < |u| ==> 'A' <= u[i] <= 'Z'
  }

  /** Upper-casing leaves an upper-case ASCII string as it is. */
  lemma UpperAsciiFixed(u: string)
    requires UpperAscii(u)
    ensures ToUpperCase(u) == u
  {
    UpperFixed(u);
  }
}
