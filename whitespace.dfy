/**
 * String handling behind the legacy `tags` conversion in
 * src/services/openaiService.ts: the ECMAScript white-space class used by
 * both `\s` and `String.prototype.trim`, the expression
 * `tags.split(/\s+/).filter(tag => tag.trim() !== '')` as written, and the
 * reference description of its result as the maximal runs of
 * non-white-space characters.
 */
module Whitespace {

  /** ECMAScript WhiteSpace and LineTerminator code points (the `\s` class, also what `trim()` strips). */
  predicate IsWs(c: char) {
    || c == '\t' || c == '\n' || c == '\U{000B}' || c == '\U{000C}' || c == '\r' || c == ' '
    || c == '\U{00A0}' || c == '\U{1680}' || ('\U{2000}' <= c <= '\U{200A}')
    || c == '\U{2028}' || c == '\U{2029}' || c == '\U{202F}' || c == '\U{205F}'
    || c == '\U{3000}' || c == '\U{FEFF}'
  }

  predicate NoWs(s: string) {
    forall i :: 0 <= i < |s| ==> !IsWs(s[i])
  }

  predicate AllWs(s: string) {
    forall i :: 0 <= i < |s| ==> IsWs(s[i])
  }

  /** Length of the leading run of non-white-space characters of `s`. */
  function NonWsRun(s: string): (n: nat)
    ensures n <= |s|
    ensures NoWs(s[..n])
    ensures n < |s| ==> IsWs(s[n])
  {
    if s == [] || IsWs(s[0]) then 0 else 1 + NonWsRun(s[1..])
  }

  /** Length of the leading run of white-space characters of `s`. */
  function WsRun(s: string): (n: nat)
    ensures n <= |s|
    ensures AllWs(s[..n])
    ensures n < |s| ==> !IsWs(s[n])
  {
    if s == [] || !IsWs(s[0]) then 0 else 1 + WsRun(s[1..])
  }

  /**
   * `s.split(/\s+/)`: the pieces between the maximal white-space runs,
   * including the empty piece before a leading run and after a trailing one.
   */
  function SplitOnWsRuns(s: string): (pieces: seq<string>)
    ensures |pieces| >= 1
    ensures forall k :: 0 <= k < |pieces| ==> NoWs(pieces[k])
    decreases |s|
  {
    var n := NonWsRun(s);
    if n == |s| then [s]
    else
      var m := n + WsRun(s[n..]);
      [s[..n]] + SplitOnWsRuns(s[m..])
  }

  /** `s.trimStart()`. */
  function TrimLeft(s: string): (r: string)
    ensures |r| <= |s| && r == s[|s| - |r|..]
    ensures AllWs(s[..|s| - |r|])
    ensures r == [] || !IsWs(r[0])
  {
    if s != [] && IsWs(s[0]) then TrimLeft(s[1..]) else s
  }

  /** `s.trimEnd()`. */
  function TrimRight(s: string): (r: string)
    ensures |r| <= |s| && r == s[..|r|]
    ensures AllWs(s[|r|..])
    ensures r == [] || !IsWs(r[|r| - 1])
  {
    if s != [] && IsWs(s[|s| - 1]) then TrimRight(s[..|s| - 1]) else s
  }

  /** `s.trim()`. */
  function Trim(s: string): string {
    TrimRight(TrimLeft(s))
  }

  /** `pieces.filter(p => p.trim() !== '')`. */
  function DropBlank(pieces: seq<string>): (kept: seq<string>)
    ensures forall k :: 0 <= k < |kept| ==> kept[k] in pieces && Trim(kept[k]) != ""
  {
    if pieces == [] then []
    else if Trim(pieces[0]) == "" then DropBlank(pieces[1..])
    else [pieces[0]] + DropBlank(pieces[1..])
  }

  /**
   * Reference description of the tokens: the maximal runs of
   * non-white-space characters of `s`, in order.
   */
  function SplitWs(s: string): (tokens: seq<string>)
    ensures forall k :: 0 <= k < |tokens| ==> tokens[k] != [] && NoWs(tokens[k])
    decreases |s|
  {
    if s == [] then []
    else if IsWs(s[0]) then SplitWs(s[1..])
    else
      var n := NonWsRun(s);
      [s[..n]] + SplitWs(s[n..])
  }

  /** `s.replace(/\s+/g, ' ')`: every white-space run becomes one space. */
  function Collapse(s: string): string
    decreases |s|
  {
    if s == [] then []
    else if IsWs(s[0]) then " " + Collapse(TrimLeft(s))
    else [s[0]] + Collapse(s[1..])
  }

  /** `tokens.join(' ')`. */
  function JoinSpace(tokens: seq<string>): string {
    if tokens == [] then ""
    else if |tokens| == 1 then tokens[0]
    else tokens[0] + " " + JoinSpace(tokens[1..])
  }

  // ----- The expression as written equals the reference description -----

  /** Leading white space never changes the tokens. */
  lemma {:induction false} SplitWsSkipsWs(s: string, k: nat)
    requires k <= |s| && AllWs(s[..k])
    ensures SplitWs(s) == SplitWs(s[k..])
    decreases k
  {
    if k > 0 {
      assert IsWs(s[..k][0]);
      assert s[1..][..k - 1] == s[1..k];
      SplitWsSkipsWs(s[1..], k - 1);
      assert s[1..][k - 1..] == s[k..];
    }
  }

  lemma {:induction false} SplitWsNoneIffAllWs(s: string)
    ensures SplitWs(s) == [] <==> AllWs(s)
    decreases |s|
  {
    if s != [] {
      if IsWs(s[0]) {
        SplitWsNoneIffAllWs(s[1..]);
        assert AllWs(s) <==> AllWs(s[1..]) by {
          if AllWs(s[1..]) {
            forall i | 0 <= i < |s| ensures IsWs(s[i]) {
              if i > 0 { assert s[i] == s[1..][i - 1]; }
            }
          }
        }
      }
    }
  }

  /**
   * `tags.split(/\s+/).filter(tag => tag.trim() !== '')` yields exactly the
   * maximal non-white-space runs of `tags`.
   */
  lemma {:induction false} SplitFilterIsSplitWs(s: string)
    ensures DropBlank(SplitOnWsRuns(s)) == SplitWs(s)
    decreases |s|
  {
    var n := NonWsRun(s);
    if n == |s| {
      assert s[..n] == s;
      if s == [] {
        assert DropBlank([s]) == [];
      } else {
        assert Trim(s) == s;
        assert DropBlank([s]) == [s] + DropBlank([]);
        assert s[n..] == [];
      }
    } else {
      var w := WsRun(s[n..]);
      var m := n + w;
      assert w > 0;
      var rest := SplitOnWsRuns(s[m..]);
      assert SplitOnWsRuns(s) == [s[..n]] + rest;
      assert ([s[..n]] + rest)[1..] == rest;
      SplitFilterIsSplitWs(s[m..]);
      assert s[n..][w..] == s[m..];
      SplitWsSkipsWs(s[n..], w);
      if n == 0 {
        assert Trim(s[..n]) == "";
        assert SplitWs(s) == SplitWs(s[n..]);
      } else {
        assert Trim(s[..n]) == s[..n];
      }
    }
  }

  // ----- Joining the tokens gives the trimmed, collapsed string -----

  lemma {:induction false} TrimLeftDropsWsPrefix(w: string, x: string)
    requires AllWs(w) && (x == [] || !IsWs(x[0]))
    ensures TrimLeft(w + x) == x
    decreases |w|
  {
    if w == [] {
      assert w + x == x;
    } else {
      assert (w + x)[1..] == w[1..] + x;
      TrimLeftDropsWsPrefix(w[1..], x);
    }
  }

  lemma {:induction false} TrimRightDropsWsSuffix(a: string, w: string)
    requires AllWs(w)
    ensures TrimRight(a + w) == TrimRight(a)
    decreases |w|
  {
    if w == [] {
      assert a + w == a;
    } else {
      var aw := a + w;
      assert aw[..|aw| - 1] == a + w[..|w| - 1];
      TrimRightDropsWsSuffix(a, w[..|w| - 1]);
    }
  }

  lemma {:induction false} TrimRightKeepsPrefix(a: string, b: string)
    requires !AllWs(b)
    ensures TrimRight(a + b) == a + TrimRight(b)
    decreases |b|
  {
    var ab := a + b;
    if IsWs(b[|b| - 1]) {
      assert ab[..|ab| - 1] == a + b[..|b| - 1];
      assert !AllWs(b[..|b| - 1]);
      TrimRightKeepsPrefix(a, b[..|b| - 1]);
    }
  }

  lemma {:induction false} CollapseNoWsPrefix(a: string, b: string)
    requires NoWs(a)
    ensures Collapse(a + b) == a + Collapse(b)
    decreases |a|
  {
    if a == [] {
      assert a + b == b;
    } else {
      assert (a + b)[1..] == a[1..] + b;
      CollapseNoWsPrefix(a[1..], b);
    }
  }

  /** The case of `JoinSplitWsIsCollapsedTrim` where a single token remains. */
  lemma LastToken(tok: string, rest: string)
    requires tok != [] && NoWs(tok) && AllWs(rest)
    ensures Collapse(TrimRight(tok + rest)) == tok
  {
    TrimRightDropsWsSuffix(tok, rest);
    assert TrimRight(tok) == tok;
    CollapseNoWsPrefix(tok, []);
    assert tok + [] == tok;
  }

  /** The case of `JoinSplitWsIsCollapsedTrim` where more tokens follow `tok`. */
  lemma MoreTokens(tok: string, rest: string)
    requires tok != [] && NoWs(tok) && !AllWs(rest) && rest != [] && IsWs(rest[0])
    ensures Collapse(TrimRight(tok + rest)) == tok + " " + Collapse(Trim(rest))
  {
    var r' := TrimLeft(rest);
    var w := rest[..|rest| - |r'|];
    var tr := TrimRight(r');
    assert rest == w + r' && w != [] && AllWs(w) && !AllWs(r') by {
      assert IsWs(rest[0]);
      assert !IsWs(r'[0]);
    }
    assert TrimRight(tok + rest) == tok + (w + tr) by {
      TrimRightKeepsPrefix(tok, rest);
      TrimRightKeepsPrefix(w, r');
    }
    assert Collapse(w + tr) == " " + Collapse(tr) by {
      WsRunCollapses(w, r');
    }
    CollapseNoWsPrefix(tok, w + tr);
  }

  lemma WsRunCollapses(w: string, r: string)
    requires w != [] && AllWs(w) && r != [] && !IsWs(r[0])
    ensures Collapse(w + TrimRight(r)) == " " + Collapse(TrimRight(r))
  {
    var tr := TrimRight(r);
    assert !AllWs(r) by { assert !IsWs(r[0]); }
    assert tr != [] && !IsWs(tr[0]);
    assert IsWs((w + tr)[0]);
    TrimLeftDropsWsPrefix(w, tr);
  }

  /**
   * Joining the tokens with single spaces gives `s.trim()` with every
   * white-space run collapsed to one space.
   */
  lemma {:induction false} JoinSplitWsIsCollapsedTrim(s: string)
    ensures JoinSpace(SplitWs(s)) == Collapse(Trim(s))
    decreases |s|
  {
    var t := TrimLeft(s);
    SplitWsSkipsWs(s, |s| - |t|);
    if t != [] {
      var n := NonWsRun(t);
      var tok, rest := t[..n], t[n..];
      assert t == tok + rest;
      assert SplitWs(t) == [tok] + SplitWs(rest);
      SplitWsNoneIffAllWs(rest);
      if AllWs(rest) {
        LastToken(tok, rest);
      } else {
        JoinSplitWsIsCollapsedTrim(rest);
        assert ([tok] + SplitWs(rest))[1..] == SplitWs(rest);
        MoreTokens(tok, rest);
      }
    }
  }

  /** `SplitWs` on a word followed by white space (or nothing) takes the word. */
  lemma TokenThenWs(tok: string, rest: string)
    requires tok != [] && NoWs(tok) && (rest == [] || IsWs(rest[0]))
    ensures SplitWs(tok + rest) == [tok] + SplitWs(rest)
  {
    var s := tok + rest;
    assert s[..|tok|] == tok && s[|tok|..] == rest;
    assert NonWsRun(s) == |tok| by {
      NonWsRunOfToken(tok, rest);
    }
  }

  lemma {:induction false} NonWsRunOfToken(tok: string, rest: string)
    requires NoWs(tok) && (rest == [] || IsWs(rest[0]))
    ensures NonWsRun(tok + rest) == |tok|
    decreases |tok|
  {
    if tok == [] {
      assert tok + rest == rest;
    } else {
      assert (tok + rest)[1..] == tok[1..] + rest;
      NonWsRunOfToken(tok[1..], rest);
    }
  }

  /** Two words between white-space runs give exactly those two tokens. */
  lemma TwoTokens(w1: string, t1: string, w2: string, t2: string, w3: string)
    requires AllWs(w1) && AllWs(w2) && AllWs(w3) && w2 != []
    requires t1 != [] && NoWs(t1) && t2 != [] && NoWs(t2)
    ensures SplitWs(w1 + (t1 + (w2 + (t2 + w3)))) == [t1, t2]
  {
    var rest2 := t2 + w3;
    var rest1 := w2 + rest2;
    var all := w1 + (t1 + rest1);
    assert all[|w1|..] == t1 + rest1 && all[..|w1|] == w1;
    SplitWsSkipsWs(all, |w1|);
    assert IsWs(rest1[0]);
    TokenThenWs(t1, rest1);
    assert rest1[|w2|..] == rest2 && rest1[..|w2|] == w2;
    SplitWsSkipsWs(rest1, |w2|);
    assert w3 == [] || IsWs(w3[0]);
    TokenThenWs(t2, w3);
    SplitWsNoneIffAllWs(w3);
  }
}
