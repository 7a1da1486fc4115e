/**
  The row of tier cards: one card per tier of the loaded catalog, marked
  selected when its code equals the dialog's selected code.
 */
module TierCards {
  import opened Wrappers
  import opened PlanTransition

  /** A billing tier; only its code takes part in the dialog's decisions. */
  datatype Tier = Tier(code: Code)

  /** No two tiers of the catalog share a code (at most one free tier among them). */
  predicate UniqueCodes(tiers: seq<Tier>) {
    forall i, j :: 0 <= i < j < |tiers| ==> tiers[i].code != tiers[j].code
  }

  /** Some tier of the catalog carries `code`. */
  predicate Offers(tiers: seq<Tier>, code: Code) {
    exists i :: 0 <= i < |tiers| && tiers[i].code == code
  }

  /** The `selected` flag of each card, in catalog order (`tiers.map(...)`). */
  function Selections(tiers: seq<Tier>, newTier: Code): (flags: seq<bool>)
    ensures |flags| == |tiers|
    ensures forall i :: 0 <= i < |tiers| ==> (flags[i] <==> tiers[i].code == newTier)
  {
    if tiers == [] then [] else [tiers[0].code == newTier] + Selections(tiers[1..], newTier)
  }

  /** How many cards carry the selected mark. */
  function CountSelected(flags: seq<bool>): (n: nat)
    ensures n <= |flags|
    ensures n == 0 <==> forall i :: 0 <= i < |flags| ==> !flags[i]
  {
    if flags == [] then 0 else (if flags[0] then 1 else 0) + CountSelected(flags[1..])
  }

  /**
    With unique codes exactly one card is selected when the selected code is
    in the catalog, and none otherwise.
   */
  lemma {:induction false} SelectedCount(tiers: seq<Tier>, newTier: Code)
    requires UniqueCodes(tiers)
    ensures CountSelected(Selections(tiers, newTier)) == if Offers(tiers, newTier) then 1 else 0
  {
    if tiers != [] {
      var rest := tiers[1..];
      assert UniqueCodes(rest) by {
        forall i, j | 0 <= i < j < |rest| ensures rest[i].code != rest[j].code {
          assert rest[i] == tiers[i + 1] && rest[j] == tiers[j + 1];
        }
      }
      SelectedCount(rest, newTier);
      assert Selections(tiers, newTier)[1..] == Selections(rest, newTier);
      if tiers[0].code == newTier {
        assert !Offers(rest, newTier) by {
          forall i | 0 <= i < |rest| ensures rest[i].code != newTier {
            assert rest[i] == tiers[i + 1];
          }
        }
      } else {
        assert Offers(tiers, newTier) <==> Offers(rest, newTier) by {
          if Offers(tiers, newTier) {
            var k :| 0 <= k < |tiers| && tiers[k].code == newTier;
            assert rest[k - 1] == tiers[k];
          }
          if Offers(rest, newTier) {
            var k :| 0 <= k < |rest| && rest[k].code == newTier;
            assert tiers[k + 1] == rest[k];
          }
        }
      }
    }
  }

  /** After the card at index `i` is clicked, that card and no other is selected. */
  lemma ClickSelectsOnlyThatCard(tiers: seq<Tier>, i: nat)
    requires UniqueCodes(tiers) && i < |tiers|
    ensures Selections(tiers, tiers[i].code)[i]
    ensures forall j :: 0 <= j < |tiers| && j != i ==> !Selections(tiers, tiers[i].code)[j]
    ensures CountSelected(Selections(tiers, tiers[i].code)) == 1
  {
    SelectedCount(tiers, tiers[i].code);
  }
}
