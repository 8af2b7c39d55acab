/**
 * The list of selected bot ids on the page and the operations on it:
 * toggling one id, selecting all, clearing.
 */
module Selection {

  /** The ids of `BOTS`, in display order. */
  const BotIds: seq<string> := ["openai", "claude", "gemini"]

  predicate NoDuplicates(s: seq<string>)
  {
    forall i, j :: 0 <= i < j < |s| ==> s[i] != s[j]
  }

  /** `s.filter(e => e !== x)`: every occurrence of `x` dropped, the rest kept
      in order. */
  function Without(s: seq<string>, x: string): (r: seq<string>)
    ensures x !in r
    ensures forall y :: y != x ==> (y in r <==> y in s)
    ensures |r| <= |s|
    ensures x !in s ==> r == s
  {
    if s == [] then []
    else (if s[0] == x then [] else [s[0]]) + Without(s[1..], x)
  }

  /** Filtering twice is filtering once. */
  lemma WithoutIdempotent(s: seq<string>, x: string)
    ensures Without(Without(s, x), x) == Without(s, x)
  {
  }

  /** Filtering commutes with appending. */
  lemma {:induction false} WithoutAppend(s: seq<string>, t: seq<string>, x: string)
    ensures Without(s + t, x) == Without(s, x) + Without(t, x)
  {
    if s == [] {
      assert s + t == t;
    } else {
      assert (s + t)[0] == s[0] && (s + t)[1..] == s[1..] + t;
      WithoutAppend(s[1..], t, x);
      assert Without(s + t, x) == (if s[0] == x then [] else [s[0]]) + Without(s[1..] + t, x);
    }
  }

  /** Filtering keeps a list free of duplicates. */
  lemma {:induction false} WithoutNoDuplicates(s: seq<string>, x: string)
    ensures NoDuplicates(s) ==> NoDuplicates(Without(s, x))
  {
    if s != [] && NoDuplicates(s) {
      WithoutNoDuplicates(s[1..], x);
      assert s[0] !in s[1..];
    }
  }

  /** `toggleBot`: `prev.includes(botId) ? prev.filter(id => id !== botId) : [...prev, botId]`. */
  function Toggled(selected: seq<string>, botId: string): (r: seq<string>)
    ensures botId in r <==> botId !in selected
    ensures forall y :: y != botId ==> (y in r <==> y in selected)
    ensures Without(r, botId) == Without(selected, botId)
    ensures botId !in selected ==> r == selected + [botId]
    ensures NoDuplicates(selected) ==> NoDuplicates(r)
  {
    if botId in selected then
      WithoutIdempotent(selected, botId);
      WithoutNoDuplicates(selected, botId);
      Without(selected, botId)
    else
      WithoutAppend(selected, [botId], botId);
      selected + [botId]
  }

  /** Toggling an absent id twice restores the list. */
  lemma ToggleTwiceAbsent(selected: seq<string>, botId: string)
    requires botId !in selected
    ensures Toggled(Toggled(selected, botId), botId) == selected
  {
    WithoutAppend(selected, [botId], botId);
  }

  /** Toggling a present id twice moves it to the end, the others keeping their order. */
  lemma ToggleTwicePresent(selected: seq<string>, botId: string)
    requires botId in selected
    ensures Toggled(Toggled(selected, botId), botId) == Without(selected, botId) + [botId]
  {
  }

  /** Toggling one of the page's own ids keeps the selection within `BOTS`. */
  lemma ToggleKeepsKnown(selected: seq<string>, botId: string)
    requires forall b :: b in selected ==> b in BotIds
    requires botId in BotIds
    ensures forall b :: b in Toggled(selected, botId) ==> b in BotIds
  {
  }
}
