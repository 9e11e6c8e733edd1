/** The JavaScript string built-ins the core relies on: `trim`, `split` on one
    character, `join`, and the decimal rendering of a non-negative integer. */
module Text {

  /** The characters `String.prototype.trim` removes (WhiteSpace and LineTerminator). */
  predicate IsWhitespace(c: char) {
    || c == '\t' || c == '\n' || c == '\U{000B}' || c == '\U{000C}' || c == '\r' || c == ' '
    || c == '\U{00A0}' || c == '\U{1680}' || ('\U{2000}' <= c <= '\U{200A}')
    || c == '\U{2028}' || c == '\U{2029}' || c == '\U{202F}' || c == '\U{205F}'
    || c == '\U{3000}' || c == '\U{FEFF}'
  }

  predicate AllWhitespace(s: string) {
    forall i :: 0 <= i < |s| ==> IsWhitespace(s[i])
  }

  predicate StartsWith(s: string, prefix: string) {
    |prefix| <= |s| && s[..|prefix|] == prefix
  }

  /** `pattern` occurs in `s` starting at index `i`. */
  predicate OccursAt(s: string, pattern: string, i: int) {
    0 <= i && i + |pattern| <= |s| && s[i..i + |pattern|] == pattern
  }

  /** `r` is the slice of `s` that starts at index `k`. */
  predicate SliceAt(s: string, r: string, k: int) {
    0 <= k <= |s| - |r| && r == s[k..k + |r|]
  }

  predicate Occurs(s: string, pattern: string) {
    exists i | 0 <= i <= |s| :: OccursAt(s, pattern, i)
  }

  /** Drops the leading whitespace: the result is the longest suffix of `s` that
      does not start with whitespace. */
  function TrimStart(s: string): (r: string)
    ensures |r| <= |s| && r == s[|s| - |r|..]
    ensures r == [] || !IsWhitespace(r[0])
    ensures AllWhitespace(s[..|s| - |r|])
  {
    if s != [] && IsWhitespace(s[0]) then TrimStart(s[1..]) else s
  }

  /** Drops the trailing whitespace: the result is the longest prefix of `s` that
      does not end with whitespace. */
  function TrimEnd(s: string): (r: string)
    ensures |r| <= |s| && r == s[..|r|]
    ensures r == [] || !IsWhitespace(r[|r| - 1])
    ensures AllWhitespace(s[|r|..])
  {
    if s != [] && IsWhitespace(s[|s| - 1]) then TrimEnd(s[..|s| - 1]) else s
  }

  /** `s.trim()`: cuts the whitespace off both ends; the result neither starts
      nor ends with whitespace (`TrimIsMiddle` says which slice it is). */
  function Trim(s: string): (r: string)
    ensures |r| <= |s|
    ensures r == [] || (!IsWhitespace(r[0]) && !IsWhitespace(r[|r| - 1]))
  {
    TrimEnd(TrimStart(s))
  }

  /** `r` is what is left of `s` after cutting off the whitespace run `s[..k]`
      before it and the whitespace run after it. */
  predicate TrimmedMiddle(s: string, r: string, k: int) {
    SliceAt(s, r, k) && AllWhitespace(s[..k]) && AllWhitespace(s[k + |r|..])
  }

  /** The trimmed text is the middle of `s`: the slice left after cutting off a
      leading and a trailing run of whitespace. */
  lemma TrimIsMiddle(s: string)
    ensures TrimmedMiddle(s, Trim(s), |s| - |TrimStart(s)|)
  {
    var t := TrimStart(s);
    var r := TrimEnd(t);
    assert Trim(s) == r;
    TrimSlices(s, t, r);
  }

  /** A prefix `r` of a suffix `t` of `s`, where `t` follows whitespace and `r`
      is followed by whitespace, is the middle of `s`. */
  lemma TrimSlices(s: string, t: string, r: string)
    requires |t| <= |s| && t == s[|s| - |t|..] && AllWhitespace(s[..|s| - |t|])
    requires |r| <= |t| && r == t[..|r|] && AllWhitespace(t[|r|..])
    ensures TrimmedMiddle(s, r, |s| - |t|)
  {
    assert s[|s| - |t| + |r|..] == t[|r|..];
  }

  lemma TrimStartNoop(s: string)
    requires s == [] || !IsWhitespace(s[0])
    ensures TrimStart(s) == s
  {
  }

  lemma {:induction false} TrimEndNoop(s: string)
    requires s == [] || !IsWhitespace(s[|s| - 1])
    ensures TrimEnd(s) == s
  {
  }

  /** Text without whitespace at either end is left alone by `trim`. */
  lemma TrimNoop(s: string)
    requires s == [] || (!IsWhitespace(s[0]) && !IsWhitespace(s[|s| - 1]))
    ensures Trim(s) == s
  {
    TrimStartNoop(s);
    TrimEndNoop(s);
  }

  lemma {:induction false} TrimStartAllWhitespace(s: string, t: string)
    requires AllWhitespace(s)
    ensures TrimStart(s + t) == TrimStart(t)
  {
    if s != [] {
      assert (s + t)[1..] == s[1..] + t;
      TrimStartAllWhitespace(s[1..], t);
    } else {
      assert s + t == t;
    }
  }

  lemma {:induction false} TrimStartAppend(s: string, t: string)
    requires !AllWhitespace(s)
    ensures TrimStart(s + t) == TrimStart(s) + t
  {
    assert s != [];
    if IsWhitespace(s[0]) {
      assert (s + t)[1..] == s[1..] + t;
      assert !AllWhitespace(s[1..]) by {
        var i :| 0 <= i < |s| && !IsWhitespace(s[i]);
        assert s[1..][i - 1] == s[i];
      }
      TrimStartAppend(s[1..], t);
    }
  }

  lemma {:induction false} TrimEndAppendWhitespace(s: string, w: string)
    requires AllWhitespace(w)
    ensures TrimEnd(s + w) == TrimEnd(s)
    decreases |w|
  {
    if w == [] {
      assert s + w == s;
    } else {
      var u := s + w;
      assert u[|u| - 1] == w[|w| - 1];
      assert u[..|u| - 1] == s + w[..|w| - 1];
      TrimEndAppendWhitespace(s, w[..|w| - 1]);
    }
  }

  /** Whitespace appended to a text does not change its trimmed form. */
  lemma TrimAppendWhitespace(s: string, w: string)
    requires AllWhitespace(w)
    ensures Trim(s + w) == Trim(s)
  {
    if AllWhitespace(s) {
      calc {
        TrimStart(s + w);
        { TrimStartAllWhitespace(s, w); }
        TrimStart(w);
        { assert w + [] == w; TrimStartAllWhitespace(w, []); }
        TrimStart([]);
        { assert s + [] == s; TrimStartAllWhitespace(s, []); }
        TrimStart(s);
      }
    } else {
      calc {
        TrimEnd(TrimStart(s + w));
        { TrimStartAppend(s, w); }
        TrimEnd(TrimStart(s) + w);
        { TrimEndAppendWhitespace(TrimStart(s), w); }
        TrimEnd(TrimStart(s));
      }
    }
  }

  /** Whitespace on either side of a text does not change its trimmed form. */
  lemma TrimIgnoresPadding(lead: string, body: string, tail: string)
    requires AllWhitespace(lead) && AllWhitespace(tail)
    ensures Trim(lead + body + tail) == Trim(body)
  {
    calc {
      Trim(lead + body + tail);
      { assert lead + body + tail == lead + (body + tail); }
      TrimEnd(TrimStart(lead + (body + tail)));
      { TrimStartAllWhitespace(lead, body + tail); }
      TrimEnd(TrimStart(body + tail));
      Trim(body + tail);
      { TrimAppendWhitespace(body, tail); }
      Trim(body);
    }
  }

  /** Trimming `lead + body + tail`, where `lead` and `tail` are whitespace and
      `body` has no whitespace at its ends, gives `body`. */
  lemma TrimPadded(lead: string, body: string, tail: string)
    requires AllWhitespace(lead) && AllWhitespace(tail)
    requires body != [] && !IsWhitespace(body[0]) && !IsWhitespace(body[|body| - 1])
    ensures Trim(lead + body + tail) == body
  {
    calc {
      Trim(lead + body + tail);
      { assert lead + body + tail == lead + (body + tail); }
      TrimEnd(TrimStart(lead + (body + tail)));
      { TrimStartAllWhitespace(lead, body + tail); }
      TrimEnd(TrimStart(body + tail));
      { assert (body + tail)[0] == body[0]; TrimStartNoop(body + tail); }
      TrimEnd(body + tail);
      { TrimEndAppendWhitespace(body, tail); }
      TrimEnd(body);
      { TrimEndNoop(body); }
      body;
    }
  }

  /** Index of the first `c` in `s`, or `|s|` when there is none. */
  function IndexOf(s: string, c: char): (i: nat)
    ensures i <= |s|
    ensures forall j :: 0 <= j < i ==> s[j] != c
    ensures i < |s| ==> s[i] == c
  {
    if s == [] then 0 else if s[0] == c then 0 else 1 + IndexOf(s[1..], c)
  }

  /** `s.split(c)` for a one-character separator. */
  function Split(s: string, c: char): (r: seq<string>)
    ensures |r| >= 1
    ensures forall k :: 0 <= k < |r| ==> c !in r[k]
    ensures StartsWith(s, r[0])
    ensures |r| == 1 <==> c !in s
    decreases |s|
  {
    var i := IndexOf(s, c);
    if i == |s| then [s] else [s[..i]] + Split(s[i + 1..], c)
  }

  /** The first piece of a split is the text before the first separator. */
  lemma SplitFirst(s: string, c: char)
    ensures Split(s, c)[0] == s[..IndexOf(s, c)]
  {
  }

  /** `items.join(sep)` */
  function Join(items: seq<string>, sep: string): (r: string)
    ensures |items| == 0 ==> r == ""
    ensures |items| >= 1 ==> StartsWith(r, items[0])
  {
    if |items| == 0 then ""
    else if |items| == 1 then items[0]
    else items[0] + sep + Join(items[1..], sep)
  }

  lemma IndexOfAfter(a: string, c: char, b: string)
    requires c !in a
    ensures IndexOf(a + [c] + b, c) == |a|
  {
    var u := a + [c] + b;
    assert u[|a|] == c;
    assert forall j :: 0 <= j < |a| ==> u[j] == a[j];
  }

  /** Splitting at a first separator peels off the text before it. */
  lemma SplitAfter(a: string, c: char, b: string)
    requires c !in a
    ensures Split(a + [c] + b, c) == [a] + Split(b, c)
  {
    var u := a + [c] + b;
    IndexOfAfter(a, c, b);
    assert u[..|a|] == a;
    assert u[|a| + 1..] == b;
  }

  /** Splitting a joined list on its one-character separator gives the list
      back, provided no item contains the separator. */
  lemma {:induction false} SplitJoin(items: seq<string>, c: char)
    requires |items| >= 1
    requires forall k :: 0 <= k < |items| ==> c !in items[k]
    ensures Split(Join(items, [c]), c) == items
  {
    if |items| == 1 {
      assert Join(items, [c]) == items[0];
    } else {
      var tail := items[1..];
      var rest := Join(tail, [c]);
      assert c !in items[0];
      calc {
        Split(Join(items, [c]), c);
        { assert Join(items, [c]) == items[0] + [c] + rest; }
        Split(items[0] + [c] + rest, c);
        { SplitAfter(items[0], c, rest); }
        [items[0]] + Split(rest, c);
        { SeparatorFreeTail(items, c); SplitJoin(tail, c); }
        [items[0]] + tail;
        items;
      }
    }
  }

  lemma SeparatorFreeTail(items: seq<string>, c: char)
    requires |items| >= 1
    requires forall k :: 0 <= k < |items| ==> c !in items[k]
    ensures forall k :: 0 <= k < |items| - 1 ==> c !in items[1..][k]
  {
    forall k | 0 <= k < |items| - 1 ensures c !in items[1..][k] {
      assert items[1..][k] == items[k + 1];
    }
  }

  /** A joined list whose first item is non-empty starts with that item's
      first character. */
  lemma JoinFirst(items: seq<string>, sep: string)
    requires |items| >= 1 && items[0] != []
    ensures Join(items, sep) != [] && Join(items, sep)[0] == items[0][0]
  {
  }

  /** A joined list whose last item is non-empty ends with that item's last
      character. */
  lemma {:induction false} JoinLast(items: seq<string>, sep: string)
    requires |items| >= 1 && items[|items| - 1] != []
    ensures var j := Join(items, sep);
      j != [] && j[|j| - 1] == items[|items| - 1][|items[|items| - 1]| - 1]
  {
    if |items| >= 2 {
      JoinLast(items[1..], sep);
    }
  }

  /** An occurrence in `b` is an occurrence in `a + b`, shifted by `|a|`. */
  lemma OccursAfterPrefix(a: string, b: string, p: string, i: int)
    requires OccursAt(b, p, i)
    ensures OccursAt(a + b, p, |a| + i)
  {
    var u := a + b;
    forall j | 0 <= j < |p| ensures u[|a| + i..|a| + i + |p|][j] == p[j] {
      assert u[|a| + i + j] == b[i + j];
      assert b[i..i + |p|][j] == b[i + j];
    }
    assert u[|a| + i..|a| + i + |p|] == p;
  }

  /** A slice of a text in which `p` does not occur holds no occurrence of `p`. */
  lemma AbsentFromSlice(s: string, r: string, k: int, p: string)
    requires !Occurs(s, p)
    requires SliceAt(s, r, k)
    ensures !Occurs(r, p)
  {
    forall i | 0 <= i <= |r| && OccursAt(r, p, i)
      ensures false
    {
      forall j | 0 <= j < |p| ensures s[k + i..k + i + |p|][j] == p[j] {
        assert s[k + i + j] == r[i + j];
        assert r[i..i + |p|][j] == r[i + j];
      }
      assert s[k + i..k + i + |p|] == p;
      assert OccursAt(s, p, k + i);
    }
  }

  /** Every item of a joined list occurs in the joined text. */
  lemma {:induction false} JoinContains(items: seq<string>, sep: string, k: nat)
    requires k < |items|
    ensures Occurs(Join(items, sep), items[k])
  {
    if |items| == 1 {
      assert OccursAt(Join(items, sep), items[k], 0);
    } else {
      var rest := Join(items[1..], sep);
      var u := items[0] + sep + rest;
      assert Join(items, sep) == u;
      if k == 0 {
        assert u[0..|items[0]|] == items[0];
        assert OccursAt(u, items[0], 0);
      } else {
        JoinContains(items[1..], sep, k - 1);
        assert items[1..][k - 1] == items[k];
        var i :| 0 <= i <= |rest| && OccursAt(rest, items[k], i);
        OccursAfterPrefix(items[0] + sep, rest, items[k], i);
        assert OccursAt(u, items[k], |items[0] + sep| + i);
      }
    }
  }

  predicate IsDigit(c: char) {
    '0' <= c <= '9'
  }

  function DigitChar(d: nat): (c: char)
    requires d < 10
    ensures IsDigit(c) && c as int - '0' as int == d
  {
    "0123456789"[d]
  }

  /** The decimal text of `n`, as JavaScript renders a non-negative integer:
      digits only, with no leading zero. */
  function NatToString(n: nat): (r: string)
    ensures |r| >= 1
    ensures forall i :: 0 <= i < |r| ==> IsDigit(r[i])
    ensures r[0] == '0' ==> n == 0 && r == "0"
  {
    if n < 10 then [DigitChar(n)] else NatToString(n / 10) + [DigitChar(n % 10)]
  }

  /** The number a string of decimal digits denotes (a reference reading of a
      rendered number). */
  function DigitsValue(s: string): nat
    requires forall i :: 0 <= i < |s| ==> IsDigit(s[i])
  {
    if s == [] then 0
    else
      assert IsDigit(s[|s| - 1]);
      10 * DigitsValue(s[..|s| - 1]) + (s[|s| - 1] as int - '0' as int)
  }

  /** Reading back a rendered number gives the number. */
  lemma {:induction false} NatToStringRoundTrip(n: nat)
    ensures DigitsValue(NatToString(n)) == n
  {
    if n >= 10 {
      var r := NatToString(n);
      assert r[..|r| - 1] == NatToString(n / 10);
      NatToStringRoundTrip(n / 10);
    }
  }

  /** Distinct numbers render as distinct texts. */
  lemma NatToStringInjective(m: nat, n: nat)
    requires NatToString(m) == NatToString(n)
    ensures m == n
  {
    NatToStringRoundTrip(m);
    NatToStringRoundTrip(n);
  }
}
