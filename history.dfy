/**
 * The in-memory list of recent prompts: most recent first, without
 * repetitions, at most ten long.
 */
module History {
  import opened Selection

  const HistoryLimit := 10

  function Min(a: int, b: int): int
  {
    if a <= b then a else b
  }

  /** `[prompt, ...history.filter(h => h !== prompt)].slice(0, 10)` */
  function Pushed(history: seq<string>, prompt: string): (r: seq<string>)
    ensures 1 <= |r| <= HistoryLimit && r[0] == prompt
    ensures prompt !in r[1..]
    ensures |r| == Min(HistoryLimit, 1 + |Without(history, prompt)|)
    ensures r[1..] == Without(history, prompt)[..|r| - 1]
  {
    var all := [prompt] + Without(history, prompt);
    assert all[1..] == Without(history, prompt);
    all[..Min(HistoryLimit, |all|)]
  }

  /** Recording the same prompt twice in a row changes nothing the second time. */
  lemma PushedIdempotent(history: seq<string>, prompt: string)
    ensures Pushed(Pushed(history, prompt), prompt) == Pushed(history, prompt)
  {
    var once := Pushed(history, prompt);
    var rest := once[1..];
    assert prompt !in rest;
    assert once == [prompt] + rest;
    WithoutAppend([prompt], rest, prompt);
    assert Without(once, prompt) == rest;
  }

  /** The list stays free of duplicates. */
  lemma PushedNoDuplicates(history: seq<string>, prompt: string)
    requires NoDuplicates(history)
    ensures NoDuplicates(Pushed(history, prompt))
  {
    var w := Without(history, prompt);
    WithoutNoDuplicates(history, prompt);
    var r := Pushed(history, prompt);
    forall i, j | 0 <= i < j < |r| ensures r[i] != r[j] {
      if i == 0 {
        assert r[j] == r[1..][j - 1];
      } else {
        assert r[i] == w[i - 1] && r[j] == w[j - 1];
      }
    }
  }

  /** Among the previous entries other than the prompt, the first nine survive,
      in order; the older ones are dropped. */
  lemma PushedKeepsRecent(history: seq<string>, prompt: string, i: nat)
    requires i < |Without(history, prompt)|
    ensures i < HistoryLimit - 1 ==> Pushed(history, prompt)[i + 1] == Without(history, prompt)[i]
    ensures |Pushed(history, prompt)| <= i + 1 <==> i >= HistoryLimit - 1
  {
  }
}
