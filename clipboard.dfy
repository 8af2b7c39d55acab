/**
 * The text `copyResponse` puts on the clipboard:
 * `response.replace(/<[^>]*>/g, '').replace(/&nbsp;/g, ' ')`.
 */
module Clipboard {

  const Nbsp := "&nbsp;"

  /** `s` begins with `&nbsp;`, compared character by character. */
  predicate AtNbsp(s: string)
  {
    |s| >= 6 && s[0] == '&' && s[1] == 'n' && s[2] == 'b' && s[3] == 's' && s[4] == 'p' && s[5] == ';'
  }

  /** `&nbsp;` occurs somewhere in `s`. */
  predicate HasNbsp(s: string)
  {
    s != [] && (AtNbsp(s) || HasNbsp(s[1..]))
  }

  /** Position by position: no `<` of `s` has a `>` anywhere after it, so
      not one `<...>` span is left. */
  predicate NoTagSpan(s: string)
  {
    s == [] || ((s[0] == '<' ==> '>' !in s[1..]) && NoTagSpan(s[1..]))
  }

  /** The index of the first `>` in `s`. */
  function CloseIndex(s: string): (k: nat)
    requires '>' in s
    ensures k < |s| && s[k] == '>' && '>' !in s[..k]
  {
    if s[0] == '>' then 0 else 1 + CloseIndex(s[1..])
  }

  /** `s.replace(/<[^>]*>/g, '')`. The scan goes left to right; at a `<`
      followed somewhere by a `>`, the span up to the first such `>` is
      dropped; a `<` with no `>` after it stays, and so does every other character. */
  function StripTags(s: string): (r: string)
    ensures |r| <= |s|
    ensures '>' in r ==> '>' in s
    ensures NoTagSpan(r)
    ensures '<' !in s ==> r == s
    decreases |s|
  {
    if s == [] then []
    else if s[0] == '<' && '>' in s then StripTags(s[CloseIndex(s) + 1..])
    else
      var rest := StripTags(s[1..]);
      var r := [s[0]] + rest;
      assert r[1..] == rest;
      r
  }

  /** `s.replace(/&nbsp;/g, ' ')`, scanning left to right without overlaps. */
  function ReplaceNbsp(s: string): (r: string)
    ensures |r| <= |s|
    ensures '>' in r ==> '>' in s
    ensures !HasNbsp(s) ==> r == s
    decreases |s|
  {
    if AtNbsp(s) then " " + ReplaceNbsp(s[6..])
    else if s == [] then []
    else [s[0]] + ReplaceNbsp(s[1..])
  }

  /** The clipboard text. What `copyResponse` promises of it: every `<...>`
      span is gone, no `&nbsp;` is left, and text with neither `<` nor
      `&nbsp;` is copied unchanged. */
  function CopyText(response: string): (r: string)
    ensures NoTagSpan(r)
    ensures !HasNbsp(r)
    ensures '<' !in response && !HasNbsp(response) ==> r == response
    ensures |r| <= |response|
  {
    ReplaceKeepsNoTagSpan(StripTags(response));
    ReplaceLeavesNoNbsp(StripTags(response));
    ReplaceNbsp(StripTags(response))
  }

  // ---------------------------------------------------------------------
  // What the predicates mean

  /** `AtNbsp` is a comparison with the literal `&nbsp;`. */
  lemma AtNbspIsPrefix(s: string)
    ensures AtNbsp(s) <==> |s| >= |Nbsp| && s[..|Nbsp|] == Nbsp
  {
    if |s| >= |Nbsp| && s[..|Nbsp|] == Nbsp {
      assert s[0] == Nbsp[0] && s[5] == Nbsp[5];
    }
  }

  /** Without `&nbsp;` in `s`, no six consecutive characters of `s` spell it. */
  lemma {:induction false} NoNbspAnywhere(s: string, i: nat)
    requires !HasNbsp(s) && i + |Nbsp| <= |s|
    ensures s[i..i + |Nbsp|] != Nbsp
    decreases i
  {
    if i == 0 {
      AtNbspIsPrefix(s);
    } else {
      assert s[1..][i - 1..i - 1 + |Nbsp|] == s[i..i + |Nbsp|];
      NoNbspAnywhere(s[1..], i - 1);
    }
  }

  /** In a string without tag spans, a `<` is never followed by a `>`. */
  lemma {:induction false} NoTagSpanAt(s: string, i: nat, j: nat)
    requires NoTagSpan(s) && i < j < |s| && s[i] == '<'
    ensures s[j] != '>'
    decreases i
  {
    if i == 0 {
      assert s[j] == s[1..][j - 1];
    } else {
      NoTagSpanAt(s[1..], i - 1, j - 1);
    }
  }

  // ---------------------------------------------------------------------
  // The copy

  /** A suffix of a string without tag spans has none either. */
  lemma {:induction false} NoTagSpanSuffix(s: string, k: nat)
    requires NoTagSpan(s) && k <= |s|
    ensures NoTagSpan(s[k..])
    decreases k
  {
    if k > 0 {
      NoTagSpanSuffix(s[1..], k - 1);
      assert s[1..][k - 1..] == s[k..];
    }
  }

  /** As long as the output has no space, it copies the input. */
  lemma {:induction false} ReplacePrefix(s: string, k: nat)
    requires k <= |ReplaceNbsp(s)| && ' ' !in ReplaceNbsp(s)[..k]
    ensures k <= |s| && s[..k] == ReplaceNbsp(s)[..k]
    decreases k
  {
    if k > 0 {
      var r := ReplaceNbsp(s);
      assert r[0] in r[..k];
      assert !AtNbsp(s) && s != [];
      assert r == [s[0]] + ReplaceNbsp(s[1..]);
      assert ReplaceNbsp(s[1..])[..k - 1] == r[1..k];
      ReplacePrefix(s[1..], k - 1);
      assert s[..k] == [s[0]] + s[1..][..k - 1];
    }
  }

  /** No `&nbsp;` survives the replacement, not even one formed across a
      replaced occurrence. */
  lemma {:induction false} ReplaceLeavesNoNbsp(s: string)
    ensures !HasNbsp(ReplaceNbsp(s))
    decreases |s|
  {
    var r := ReplaceNbsp(s);
    if AtNbsp(s) {
      ReplaceLeavesNoNbsp(s[6..]);
      assert r[1..] == ReplaceNbsp(s[6..]);
    } else if s != [] {
      var rest := ReplaceNbsp(s[1..]);
      ReplaceLeavesNoNbsp(s[1..]);
      assert r[1..] == rest;
      if AtNbsp(r) {
        assert rest[..5] == "nbsp;";
        ReplacePrefix(s[1..], 5);
        assert false;
      }
    }
  }

  /** The replacement adds no `<` and no `>`, so no tag span appears. */
  lemma {:induction false} ReplaceKeepsNoTagSpan(s: string)
    requires NoTagSpan(s)
    ensures NoTagSpan(ReplaceNbsp(s))
    decreases |s|
  {
    var r := ReplaceNbsp(s);
    if AtNbsp(s) {
      NoTagSpanSuffix(s, 6);
      ReplaceKeepsNoTagSpan(s[6..]);
      assert r[1..] == ReplaceNbsp(s[6..]);
    } else if s != [] {
      ReplaceKeepsNoTagSpan(s[1..]);
      assert r[1..] == ReplaceNbsp(s[1..]);
    }
  }

  /** The first `>` after text without one is the one that ends it. */
  lemma {:induction false} CloseIndexAfter(p: string, q: string)
    requires '>' !in p
    ensures CloseIndex(p + ">" + q) == |p|
    decreases |p|
  {
    var s := p + ">" + q;
    if p != [] {
      assert s[0] == p[0] && s[1..] == p[1..] + ">" + q;
      CloseIndexAfter(p[1..], q);
    }
  }

  /** A leading `<...>` span is removed whole. */
  lemma StripTagsLeadingSpan(tag: string, b: string)
    requires '>' !in tag
    ensures StripTags("<" + tag + ">" + b) == StripTags(b)
  {
    var open := "<" + tag;
    var s := open + ">" + b;
    CloseIndexAfter(open, b);
    assert s[0] == '<' && s[|open|] == '>';
    assert s[|open| + 1..] == b;
  }

  /** Text without `<` in front is kept as it is. */
  lemma {:induction false} StripTagsKeepsPrefix(a: string, s: string)
    requires '<' !in a
    ensures StripTags(a + s) == a + StripTags(s)
    decreases |a|
  {
    if a != [] {
      var t := a[1..] + s;
      assert StripTags(a + s) == [a[0]] + StripTags(t) by {
        assert a + s == [a[0]] + t;
        assert a[0] in a;
      }
      StripTagsKeepsPrefix(a[1..], s);
      assert a == [a[0]] + a[1..];
    } else {
      assert a + s == s;
    }
  }

  /** A `<...>` span after text without `<` is removed whole, the text
      before it kept. */
  lemma StripTagsDropsSpan(a: string, tag: string, b: string)
    requires '<' !in a && '>' !in tag
    ensures StripTags(a + ("<" + tag + ">" + b)) == a + StripTags(b)
  {
    StripTagsKeepsPrefix(a, "<" + tag + ">" + b);
    StripTagsLeadingSpan(tag, b);
  }

  /** An `&nbsp;` after text without an `&nbsp;` of its own becomes one
      space, the text before it kept: an occurrence cannot begin inside `a`,
      since `&nbsp;` does not overlap itself. */
  lemma {:induction false} ReplaceNbspAt(a: string, b: string)
    requires !HasNbsp(a)
    ensures ReplaceNbsp(a + Nbsp + b) == a + " " + ReplaceNbsp(b)
    decreases |a|
  {
    var s := a + Nbsp + b;
    if a == [] {
      assert s == Nbsp + b && AtNbsp(s) && s[6..] == b;
    } else {
      var t := a[1..] + Nbsp + b;
      assert s == [a[0]] + t;
      assert !AtNbsp(s) by {
        if |a| >= 6 {
          assert s[0] == a[0] && s[1] == a[1] && s[2] == a[2] && s[3] == a[3] && s[4] == a[4] && s[5] == a[5];
        } else {
          assert s[|a|] == '&';
        }
      }
      assert ReplaceNbsp(s) == [s[0]] + ReplaceNbsp(t);
      ReplaceNbspAt(a[1..], b);
      assert a == [a[0]] + a[1..];
    }
  }

  /** Stripping is idempotent: text left by one pass has no span to remove. */
  lemma {:induction false} StripTagsIdempotent(s: string)
    requires NoTagSpan(s)
    ensures StripTags(s) == s
    decreases |s|
  {
    if s != [] {
      StripTagsIdempotent(s[1..]);
      if s[0] == '<' {
        assert '>' !in s by { assert s == [s[0]] + s[1..]; }
      }
    }
  }

  /** Copying twice is copying once. */
  lemma CopyTextIdempotent(response: string)
    ensures CopyText(CopyText(response)) == CopyText(response)
  {
    var c := CopyText(response);
    StripTagsIdempotent(c);
  }
}
