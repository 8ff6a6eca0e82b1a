/**
 * The one piece of SQL text the modelled code builds itself: the `?` list of an
 * `IN (...)` clause, one placeholder per bound value.
 */
module Sql {
  import opened Text

  /** `", ".join(["?" for _ in xs])` for a collection of n elements. */
  function Placeholders(n: nat): string
  {
    Join(", ", seq(n, _ => "?"))
  }

  /** The placeholder list holds exactly one `?` per element, and is empty only for
      an empty collection. */
  lemma {:induction false} PlaceholdersCount(n: nat)
    ensures CountChar(Placeholders(n), '?') == n
    ensures Placeholders(n) == "" <==> n == 0
    decreases n
  {
    if n >= 2 {
      PlaceholdersCount(n - 1);
      assert seq(n, _ => "?")[1..] == seq(n - 1, _ => "?");
      assert Placeholders(n) == "?" + ", " + Placeholders(n - 1);
      CountCharConcat("?" + ", ", Placeholders(n - 1), '?');
      assert CountChar("?" + ", ", '?') == 1 by {
        assert ("?" + ", ")[1..] == ", " && ", "[1..] == " " && " "[1..] == "";
      }
    } else if n == 1 {
      assert Placeholders(1) == "?";
      assert "?"[1..] == "";
    }
  }

  /** Splitting a non-empty placeholder list at ", " gives one "?" per element. */
  lemma PlaceholdersSplit(n: nat)
    requires n >= 1
    ensures Split(Placeholders(n), ", ") == seq(n, _ => "?")
  {
    assert Marker(", ", 1);
    JoinSplit(seq(n, _ => "?"), ", ", 1);
  }
}
