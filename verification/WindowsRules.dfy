/** What the boxes of the Windows options dialog come to: the greatest choice that
    obeys the rules, which are listed here one by one. */
module WindowsRules {
  import opened Base
  import opened WindowsOptions

  /** The rules, each on its own: what the media must offer, what the layout must
      be, what silent installation needs, and what Windows To Go excludes. */
  predicate Lawful(s: Setup, a: Boxes, user: string) {
    && (forall b :: b in a && b != Region ==> b in s.caps)
    && (SkuPolicy in a || Ca2023 in a || Silent in a ==> s.target == "uefi")
    && (Ca2023 in a ==> s.filesystem == "fat32")
    && (Silent in a ==> s.filesystem == "fat32" || s.filesystem == "ntfs")
    && (Region in a ==> s.locale != "" || s.zone != "")
    && (Region in a && s.locale != "" ==> s.localeCap) && (Region in a && s.zone != "" ==> s.zoneCap)
    && (Silent in a ==> Account in a && Privacy in a && Region in a && s.given(user))
    && (Silent in a ==> s.locale != "" && s.zone != "" && s.images != [])
    && (ToGo in a ==> Hardware !in a && SkuPolicy !in a && Ca2023 !in a && Silent !in a && Bitlocker !in a)
  }

  /** Some of the active boxes, Windows To Go among them if the media offer it,
      that obey the rules together. */
  predicate Keeps(s: Setup, active: Boxes, user: string, kept: Boxes) {
    kept <= active && Lawful(s, kept, user) && (ToGo in active && ToGo in s.caps ==> ToGo in kept)
  }

  /** The surviving boxes are the greatest such choice. */
  lemma SurvivorsAreGreatest(s: Setup, active: Boxes, user: string, a: Boxes)
    requires forall b :: b in a <==> Survives(s, active, user, b)
    ensures Keeps(s, active, user, a)
    ensures forall kept: Boxes :: Keeps(s, active, user, kept) ==> kept <= a
  {
    forall kept: Boxes | Keeps(s, active, user, kept) ensures kept <= a {
      forall b | b in kept ensures b in a {
        LawfulSurvives(s, active, user, kept, b);
      }
    }
  }

  lemma LawfulSurvives(s: Setup, active: Boxes, user: string, kept: Boxes, b: Box)
    requires Keeps(s, active, user, kept) && b in kept
    ensures Survives(s, active, user, b)
  {
    assert b in s.caps || b == Region;
    if b == Silent {
      assert Account in kept && Privacy in kept && Region in kept;
      assert Account in s.caps && Privacy in s.caps;
      assert Account in Kept(s, active) && Privacy in Kept(s, active) && Region in Kept(s, active);
    }
  }

  /** A box that is off can be clicked exactly while the rules allow it beside the
      active ones. */
  lemma SensitiveIffLawful(s: Setup, active: Boxes, user: string, b: Box)
    requires Settled(s, active, user) && b !in active && b != ToGo
    ensures IsSensitive(s, active, user, b) <==> Lawful(s, active + {b}, user)
  {
    KeptAll(s, active);
    if Lawful(s, active + {b}, user) { assert b in active + {b}; }
  }
}
