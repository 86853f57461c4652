/**
  Which section a piece of clothing goes to, and how much of its durability each
  loss takes (gf/battle_svr/item.cpp, gf/kf_common/src/item_manager.hpp).
 */
module ClothesOutcomes {
  import opened Clothes

  // ---- The layout ------------------------------------------------------

  /** Where a piece is worn; 0 for an unknown item. */
  function PartOf(items: Items, p: Garment): nat { if p.id in items then items[p.id].part else 0 }

  /** Of the first `n` pieces those worn at one of these parts, in their order. */
  function WornAt(items: Items, ps: seq<Garment>, parts: set<nat>, n: nat): seq<Garment>
    requires n <= |ps|
  {
    if n == 0 then []
    else WornAt(items, ps, parts, n - 1) + (if PartOf(items, ps[n - 1]) in parts then [ps[n - 1]] else [])
  }

  lemma {:induction false} PartIsWornAt(items: Items, ps: seq<Garment>, n: nat)
    requires n <= |ps|
    ensures Pieces(Part(items, ps, 1, n)) == WornAt(items, ps, {1, 3, 6, 7, 8, 9}, n)
    ensures Pieces(Part(items, ps, 2, n)) == WornAt(items, ps, {2, 5}, n)
    decreases n
  {
    if n > 0 {
      PartIsWornAt(items, ps, n - 1);
      SectionByPart(items, ps, n - 1);
      PiecesOfOneMore(items, ps, 1, n);
      PiecesOfOneMore(items, ps, 2, n);
    }
  }

  lemma SectionByPart(items: Items, ps: seq<Garment>, i: nat)
    requires i < |ps|
    ensures Section(items, ps, i) == 1 <==> PartOf(items, ps[i]) in {1, 3, 6, 7, 8, 9}
    ensures Section(items, ps, i) == 2 <==> PartOf(items, ps[i]) in {2, 5}
  {
  }

  lemma PiecesOfOneMore(items: Items, ps: seq<Garment>, k: nat, n: nat)
    requires 0 < n <= |ps|
    ensures Pieces(Part(items, ps, k, n))
         == Pieces(Part(items, ps, k, n - 1)) + (if Section(items, ps, n - 1) == k then [ps[n - 1]] else [])
  {
  }

  ghost predicate IsFirstWeapon(items: Items, ps: seq<Garment>, w: nat) {
    w < |ps| && PartOf(items, ps[w]) == 4 && forall i :: 0 <= i < w ==> PartOf(items, ps[i]) != 4
  }

  /** The place of the first weapon, or the number of pieces. */
  lemma {:induction false} FirstWeaponIs(items: Items, ps: seq<Garment>, i: nat)
    requires i <= |ps|
    ensures var w := FirstWeapon(items, ps, i);
            && (w < |ps| ==> PartOf(items, ps[w]) == 4) && forall k :: i <= k < w ==> PartOf(items, ps[k]) != 4
    decreases |ps| - i
  {
    if i < |ps| && KindOf(items, ps[i].id) != Weapon {
      FirstWeaponIs(items, ps, i + 1);
    }
  }

  /**
    The layout in terms of where the pieces are worn: the first weapon (part 4), then
    all armor (parts 1, 3, 6, 7, 8 and 9), then all jewelry (2 and 5), each in the
    order of the input.
   */
  lemma SectionsFollowTheParts(items: Items, ps: seq<Garment>)
    ensures var l, n := InitialLayout(items, ps), |ps|;
            var first, second := l.weapons + l.armors, l.weapons + l.armors + l.jewels;
            && second <= |l.worn|
            && Pieces(l.worn[l.weapons..first]) == WornAt(items, ps, {1, 3, 6, 7, 8, 9}, n)
            && Pieces(l.worn[first..second]) == WornAt(items, ps, {2, 5}, n)
            && (l.weapons == 0 ==> forall i :: 0 <= i < n ==> PartOf(items, ps[i]) != 4)
            && (l.weapons != 0 ==> l.weapons == 1 && exists w :: 0 <= w < n && IsFirstWeapon(items, ps, w)
                                                                   && l.worn[0].piece == ps[w])
  {
    var n, w := |ps|, FirstWeapon(items, ps, 0);
    PartsSizes(items, ps);
    WeaponPart(items, ps, n);
    FirstWeaponIs(items, ps, 0);
    PartIsWornAt(items, ps, n);
    var a, b, c, d := Part(items, ps, 0, n), Part(items, ps, 1, n), Part(items, ps, 2, n), Part(items, ps, 3, n);
    Slices(a, b, c, d);
    if w < n {
      assert a[0] == Copy(items, ps[w], 0) && IsFirstWeapon(items, ps, w);
    }
  }

  lemma Slices(a: seq<Worn>, b: seq<Worn>, c: seq<Worn>, d: seq<Worn>)
    ensures var all := a + b + c + d;
            && all[|a|..|a| + |b|] == b && all[|a| + |b|..|a| + |b| + |c|] == c && (|a| > 0 ==> all[0] == a[0])
  {
  }

  lemma {:induction false} PartIsCopied(items: Items, ps: seq<Garment>, k: nat, n: nat)
    requires n <= |ps|
    ensures forall w :: w in Part(items, ps, k, n) ==> w == Copy(items, w.piece, k)
    decreases n
  {
    if n > 0 {
      PartIsCopied(items, ps, k, n - 1);
    }
  }

  /** A piece starts unchanged, with fifty times its item's durability as a 16-bit number, or 0 behind the jewelry. */
  lemma InitialDurations(items: Items, ps: seq<Garment>, i: nat)
    requires i < |InitialLayout(items, ps).worn|
    ensures var l := InitialLayout(items, ps);
            var w := l.worn[i];
            && !w.changed
            && w.initDuration == if i < l.weapons + l.armors + l.jewels && w.piece.id in items
                                 then items[w.piece.id].duration * 50 % 65536 else 0
  {
    var n := |ps|;
    var a, b, c, d := Part(items, ps, 0, n), Part(items, ps, 1, n), Part(items, ps, 2, n), Part(items, ps, 3, n);
    PartsSizes(items, ps);
    PartIsCopied(items, ps, 0, n);
    PartIsCopied(items, ps, 1, n);
    PartIsCopied(items, ps, 2, n);
    PartIsCopied(items, ps, 3, n);
    FourBlocks(a, b, c, d);
  }

  // ---- Losses ----------------------------------------------------------

  /** The rolls out of a hundred that hurt a weapon of this quality, and those that hurt a piece of armor. */
  function WeaponChance(quality: nat): nat {
    if quality == 2 then 85 else if quality == 3 then 60 else if quality == 4 then 50 else 100
  }

  function ArmorChance(quality: nat): nat {
    if quality == 2 then 33 else if quality == 3 then 29 else if quality == 4 then 24 else 36
  }

  /** Does this loss hurt the i-th piece? The roll below its chance decides for the weapon and for armor. */
  predicate Hurts(items: Items, l: Layout, b: Blow, i: nat)
    requires i < |l.worn| == |b.rolls|
  {
    match b.kind
    case WeaponLoss => i < l.weapons && i == 0 && b.rolls[i] % 100 < WeaponChance(Quality(items, l.worn[i].piece.id))
    case ArmorLoss =>
      l.weapons <= i < l.weapons + l.armors && b.rolls[i] % 100 < ArmorChance(Quality(items, l.worn[i].piece.id))
    case JewelryLoss => l.weapons + l.armors <= i < l.weapons + l.armors + l.jewels
    case FifthOfAll => true
  }

  /** What a loss takes: 1 from a weapon, 10 from armor, 12 from jewelry, a fifth from anything, at most all. */
  function Taken(kind: Loss, duration: nat): nat {
    var loss := match kind
                case WeaponLoss => 1
                case ArmorLoss => 10
                case JewelryLoss => 12
                case FifthOfAll => duration / 5;
    if loss < duration then loss else duration
  }

  lemma DamageDecides(items: Items, l: Layout, b: Blow, i: nat)
    requires i < |l.worn| == |b.rolls|
    ensures var w, t := l.worn[i], Damaged(items, l, b.kind, b.rolls)[i];
            var d := w.piece.duration;
            if Hurts(items, l, b, i) then t == Worn(w.piece.(duration := d - Taken(b.kind, d)), w.initDuration, true)
            else t == w
  {
  }

  /** How many of the rolls below `n` hurt the i-th piece. */
  function HurtingRolls(items: Items, l: Layout, kind: Loss, i: nat, n: nat): nat
    requires i < |l.worn|
  {
    if n == 0 then 0
    else HurtingRolls(items, l, kind, i, n - 1)
         + (if Damaged(items, l, kind, seq(|l.worn|, _ => n - 1))[i] != l.worn[i] then 1 else 0)
  }

  lemma {:induction false} HurtingRollsBelow(items: Items, l: Layout, kind: Loss, i: nat, n: nat, chance: nat)
    requires i < |l.worn| && n <= 100 && !l.worn[i].changed
    requires kind == WeaponLoss ==> i == 0 < l.weapons && chance == WeaponChance(Quality(items, l.worn[i].piece.id))
    requires kind == ArmorLoss ==> SectionAt(l, i) == 1 && chance == ArmorChance(Quality(items, l.worn[i].piece.id))
    requires kind == WeaponLoss || kind == ArmorLoss
    ensures HurtingRolls(items, l, kind, i, n) == if n < chance then n else chance
    decreases n
  {
    if n > 0 {
      HurtingRollsBelow(items, l, kind, i, n - 1, chance);
      var rolls := seq(|l.worn|, _ => n - 1);
      assert rolls[i] == n - 1;
      DamageDecides(items, l, Blow(kind, rolls), i);
    }
  }

  /**
    Of a hundred rolls a weapon is hurt by as many as its odds say, and a piece of
    armor by one more: its odds of 35, 32, 28 and 23 are tested the other way round.
   */
  lemma ArmorIsHurtOnceMore(items: Items, l: Layout, i: nat)
    requires i < |l.worn| && !l.worn[i].changed
    ensures var id := l.worn[i].piece.id;
            && (SectionAt(l, i) == 1 ==> HurtingRolls(items, l, ArmorLoss, i, 100) == ArmorOdds(items, id) + 1)
            && (i == 0 < l.weapons ==> HurtingRolls(items, l, WeaponLoss, i, 100) == WeaponOdds(items, id))
  {
    var quality := Quality(items, l.worn[i].piece.id);
    if SectionAt(l, i) == 1 {
      HurtingRollsBelow(items, l, ArmorLoss, i, 100, ArmorChance(quality));
    }
    if i == 0 < l.weapons {
      HurtingRollsBelow(items, l, WeaponLoss, i, 100, WeaponChance(quality));
    }
  }

  // ---- A series of losses ----------------------------------------------

  /** The durability that is left of `duration` after the losses that hurt. */
  function Left(items: Items, l: Layout, blows: seq<Blow>, i: nat): nat
    requires i < |l.worn| && forall b :: b in blows ==> |b.rolls| == |l.worn|
    decreases |blows|
  {
    if blows == [] then l.worn[i].piece.duration
    else
      var before, b := Left(items, l, blows[..|blows| - 1], i), blows[|blows| - 1];
      if Hurts(items, l, b, i) then before - Taken(b.kind, before) else before
  }

  /** Over any series of losses each piece loses exactly what the losses that hurt it take. */
  lemma {:induction false} BlowsAddUp(items: Items, l: Layout, blows: seq<Blow>, i: nat)
    requires WellLaidOut(items, l) && i < |l.worn| && forall b :: b in blows ==> |b.rolls| == |l.worn|
    ensures AfterBlows(items, l, blows).worn[i].piece.duration == Left(items, l, blows, i)
    decreases |blows|
  {
    if blows != [] {
      var earlier, b := blows[..|blows| - 1], blows[|blows| - 1];
      assert b in blows && forall x :: x in earlier ==> x in blows;
      var before := AfterBlows(items, l, earlier);
      BlowsAddUp(items, l, earlier, i);
      BlowsKeepLayout(items, l, earlier);
      DamageDecides(items, before, b, i);
      assert before.worn[i].piece.id == l.worn[i].piece.id;
      assert Hurts(items, before, b, i) == Hurts(items, l, b, i);
    }
  }
}
