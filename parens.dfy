/**
 * Parens: well-formed parenthesized text, the shape of the printer's output.
 * `Net` counts opening minus closing parentheses; a text is balanced when
 * the count ends at zero and never drops below zero on the way.
 */
module Parens {
  function Delta(c: char): int
  {
    if c == '(' then 1 else if c == ')' then -1 else 0
  }

  function Net(s: string): int
  {
    if |s| == 0 then 0 else Delta(s[0]) + Net(s[1..])
  }

  predicate ParenFree(s: string)
  {
    forall i :: 0 <= i < |s| ==> s[i] != '(' && s[i] != ')'
  }

  predicate Balanced(s: string)
  {
    Net(s) == 0 && forall k :: 0 <= k <= |s| ==> Net(s[..k]) >= 0
  }

  /** The count of a concatenation is the sum of the counts. */
  lemma {:induction false} NetAppend(a: string, b: string)
    ensures Net(a + b) == Net(a) + Net(b)
    decreases |a|
  {
    if |a| == 0 {
      assert a + b == b;
    } else {
      assert (a + b)[0] == a[0] && (a + b)[1..] == a[1..] + b;
      NetAppend(a[1..], b);
    }
  }

  /** Text without parentheses counts zero. */
  lemma {:induction false} ParenFreeNet(s: string)
    requires ParenFree(s)
    ensures Net(s) == 0
    decreases |s|
  {
    if |s| > 0 {
      assert ParenFree(s[1..]) by {
        forall i | 0 <= i < |s[1..]| ensures s[1..][i] != '(' && s[1..][i] != ')' {
          assert s[1..][i] == s[i + 1];
        }
      }
      ParenFreeNet(s[1..]);
    }
  }

  /** Text without parentheses is balanced. */
  lemma ParenFreeBalanced(s: string)
    requires ParenFree(s)
    ensures Balanced(s)
  {
    ParenFreeNet(s);
    forall k | 0 <= k <= |s| ensures Net(s[..k]) >= 0 {
      assert ParenFree(s[..k]) by {
        forall i | 0 <= i < k ensures s[..k][i] != '(' && s[..k][i] != ')' {
          assert s[..k][i] == s[i];
        }
      }
      ParenFreeNet(s[..k]);
    }
  }

  /** Joining two pieces without parentheses gives a piece without parentheses. */
  lemma ParenFreeAppend(a: string, b: string)
    requires ParenFree(a) && ParenFree(b)
    ensures ParenFree(a + b)
  {
    forall i | 0 <= i < |a + b| ensures (a + b)[i] != '(' && (a + b)[i] != ')' {
      if i < |a| {
        assert (a + b)[i] == a[i];
      } else {
        assert (a + b)[i] == b[i - |a|];
      }
    }
  }

  /** Two balanced texts one after the other are balanced. */
  lemma BalancedAppend(a: string, b: string)
    requires Balanced(a) && Balanced(b)
    ensures Balanced(a + b)
  {
    NetAppend(a, b);
    forall k | 0 <= k <= |a + b| ensures Net((a + b)[..k]) >= 0 {
      if k <= |a| {
        assert (a + b)[..k] == a[..k];
      } else {
        assert (a + b)[..k] == a + b[..k - |a|];
        NetAppend(a, b[..k - |a|]);
      }
    }
  }

  /** A balanced text in a pair of parentheses is balanced. */
  lemma BalancedWrap(s: string)
    requires Balanced(s)
    ensures Balanced("(" + s + ")")
  {
    var w := "(" + s + ")";
    NetAppend("(" + s, ")");
    NetAppend("(", s);
    assert Net(")") == -1 && Net("(") == 1;
    forall k | 0 <= k <= |w| ensures Net(w[..k]) >= 0 {
      if k == |w| {
        assert w[..k] == w;
      } else if k > 0 {
        assert w[..k] == "(" + s[..k - 1];
        NetAppend("(", s[..k - 1]);
      }
    }
  }
}
