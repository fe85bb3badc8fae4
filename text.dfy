/**
 * Joining a list of tokens with a separator, as Swift's
 * `[String].joined(separator:)` does: no separator before the first token or
 * after the last, and the empty list gives the empty string.
 */
module Text {

  function Join(tokens: seq<string>, sep: string): string
  {
    if |tokens| == 0 then ""
    else if |tokens| == 1 then tokens[0]
    else tokens[0] + sep + Join(tokens[1..], sep)
  }

  /** `s` begins with `prefix`. */
  predicate HasPrefix(s: string, prefix: string)
  {
    |prefix| <= |s| && s[..|prefix|] == prefix
  }

  /** Joining two non-empty lists is joining each and putting one separator between. */
  lemma {:induction false} JoinAppend(a: seq<string>, b: seq<string>, sep: string)
    requires |a| > 0 && |b| > 0
    ensures Join(a + b, sep) == Join(a, sep) + sep + Join(b, sep)
  {
    if |a| == 1 {
      assert (a + b)[1..] == b;
    } else {
      assert (a + b)[1..] == a[1..] + b;
      JoinAppend(a[1..], b, sep);
    }
  }

  /** Each token preceded by the separator: what joining adds after a first part. */
  function Prefixed(tokens: seq<string>, sep: string): string
  {
    if tokens == [] then "" else sep + tokens[0] + Prefixed(tokens[1..], sep)
  }

  lemma {:induction false} PrefixedAppend(a: seq<string>, b: seq<string>, sep: string)
    ensures Prefixed(a + b, sep) == Prefixed(a, sep) + Prefixed(b, sep)
  {
    if a == [] {
      assert a + b == b;
    } else {
      assert (a + b)[1..] == a[1..] + b;
      PrefixedAppend(a[1..], b, sep);
    }
  }

  lemma {:induction false} PrefixedIsJoin(tokens: seq<string>, sep: string)
    requires tokens != []
    ensures Prefixed(tokens, sep) == sep + Join(tokens, sep)
  {
    if |tokens| > 1 {
      PrefixedIsJoin(tokens[1..], sep);
    }
  }

  /** Joining a non-empty head with more tokens appends each of them after a separator. */
  lemma {:induction false} JoinExtend(head: seq<string>, tokens: seq<string>, sep: string)
    requires head != []
    ensures Join(head + tokens, sep) == Join(head, sep) + Prefixed(tokens, sep)
  {
    if tokens == [] {
      assert head + tokens == head;
    } else {
      JoinAppend(head, tokens, sep);
      PrefixedIsJoin(tokens, sep);
    }
  }

  /** After any `head`, token `i` stands right after the earlier tokens and one separator. */
  lemma {:induction false} TokenAt(head: string, tokens: seq<string>, i: nat, sep: string)
    requires i < |tokens|
    ensures var s := head + Prefixed(tokens, sep);
      var o := |head| + |Prefixed(tokens[..i], sep)| + |sep|;
      o + |tokens[i]| <= |s| && s[o - |sep|..o] == sep && s[o..o + |tokens[i]|] == tokens[i]
  {
    var before := head + Prefixed(tokens[..i], sep);
    var rest := Prefixed(tokens[i + 1..], sep);
    assert tokens == tokens[..i] + tokens[i..];
    PrefixedAppend(tokens[..i], tokens[i..], sep);
    assert tokens[i..][1..] == tokens[i + 1..];
    assert head + Prefixed(tokens, sep) == before + sep + tokens[i] + rest;
    assert (before + sep + tokens[i] + rest)[|before|..|before| + |sep|] == sep;
  }

  /** Token `i` of the tail, in a line joined from a non-empty head and that tail. */
  lemma {:induction false} JoinedTokenAt(head: seq<string>, tokens: seq<string>, i: nat, sep: string)
    requires head != [] && i < |tokens|
    ensures var line := Join(head + tokens, sep);
      var o := |Join(head, sep)| + |Prefixed(tokens[..i], sep)| + |sep|;
      o + |tokens[i]| <= |line| && line[o - |sep|..o] == sep && line[o..o + |tokens[i]|] == tokens[i]
  {
    JoinExtend(head, tokens, sep);
    TokenAt(Join(head, sep), tokens, i, sep);
  }

  /** Earlier tokens end, a separator's width at least, before later ones begin. */
  lemma {:induction false} TokensInOrder(tokens: seq<string>, i: nat, j: nat, sep: string)
    requires i < j <= |tokens|
    ensures |Prefixed(tokens[..i], sep)| + |sep| + |tokens[i]| <= |Prefixed(tokens[..j], sep)|
  {
    assert tokens[..j] == tokens[..i] + tokens[i..j];
    PrefixedAppend(tokens[..i], tokens[i..j], sep);
    assert tokens[i..j][0] == tokens[i];
  }
}
