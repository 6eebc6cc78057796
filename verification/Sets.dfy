/** Two facts about the sizes of sets of workers. */
module Sets {

  lemma {:induction false} Fewer(a: set<nat>, b: set<nat>)
    requires a <= b
    ensures |a| <= |b|
  {
    if a != {} {
      var w :| w in a;
      Fewer(a - {w}, b - {w});
    }
  }

  /** The numbers below n. */
  function Below(n: nat): (ws: set<nat>)
    ensures |ws| == n && forall w: nat :: w in ws <==> w < n
  {
    if n == 0 then {} else Below(n - 1) + {n - 1}
  }
}
