/**
 * Whether each element of a list carries the CSS class `active`, and how many do.
 * Shared by the navigation links and the program tab buttons.
 */
module ClassFlags {

  /** The number of elements that carry the class: the number of `true` entries. */
  function CountActive(flags: seq<bool>): (n: nat)
    ensures n <= |flags|
    ensures n == 0 <==> forall i :: 0 <= i < |flags| ==> !flags[i]
    ensures n == multiset(flags)[true]
  {
    if |flags| == 0 then 0
    else
      var rest := CountActive(flags[1..]);
      assert forall i :: 1 <= i < |flags| ==> flags[1..][i - 1] == flags[i];
      assert flags == [flags[0]] + flags[1..];
      (if flags[0] then 1 else 0) + rest
  }

  /** When every set flag sits at one index, at most one element is active. */
  lemma {:induction false} AtMostOneActive(flags: seq<bool>)
    requires forall i, j :: 0 <= i < |flags| && 0 <= j < |flags| && flags[i] && flags[j] ==> i == j
    ensures CountActive(flags) <= 1
  {
    if |flags| > 0 {
      var rest := flags[1..];
      assert forall i :: 0 <= i < |rest| ==> rest[i] == flags[i + 1];
      if flags[0] {
        assert forall i :: 0 <= i < |rest| ==> !rest[i];
      } else {
        AtMostOneActive(rest);
      }
    }
  }

  /** When exactly the flag at `k` is set, exactly one element is active. */
  lemma {:induction false} ExactlyOneActive(flags: seq<bool>, k: nat)
    requires k < |flags|
    requires forall i :: 0 <= i < |flags| ==> flags[i] == (i == k)
    ensures CountActive(flags) == 1
  {
    AtMostOneActive(flags);
    assert flags[k];
  }
}
