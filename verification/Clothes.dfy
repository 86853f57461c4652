/**
  The clothes a player wears into battle: their layout in sections and the
  durability they lose (gf/battle_svr/item.cpp).
 */
module Clothes {

  const MAX_ON := 11
  const U16: nat := 0x1_0000
  const DURATION_RATIO := 50
  const WEAPON_LOSS := 1
  const ARMOR_LOSS := 10
  const JEWELRY_LOSS := 12

  datatype Kind = Weapon | Armor | Jewelry | Plain

  datatype Item = Item(part: nat, duration: nat, quality: nat)

  /** A piece as the client's server sends it. */
  datatype Garment = Garment(id: nat, unique: nat, duration: nat, lv: nat)

  /** A piece as the battle keeps it. */
  datatype Worn = Worn(piece: Garment, initDuration: nat, changed: bool)

  type Items = map<nat, Item>

  function KindOf(items: Items, id: nat): Kind {
    if id !in items then Plain
    else if items[id].part == 4 then Weapon
    else if items[id].part in {1, 3, 6, 7, 8, 9} then Armor
    else if items[id].part in {2, 5} then Jewelry
    else Plain
  }

  /** Place of the first weapon among the pieces from `i` on, or the number of pieces. */
  function FirstWeapon(items: Items, ps: seq<Garment>, i: nat): (w: nat)
    requires i <= |ps|
    ensures i <= w <= |ps|
    ensures w < |ps| ==> KindOf(items, ps[w].id) == Weapon
    ensures forall k :: i <= k < w ==> KindOf(items, ps[k].id) != Weapon
    decreases |ps| - i
  {
    if i == |ps| || KindOf(items, ps[i].id) == Weapon then i else FirstWeapon(items, ps, i + 1)
  }

  /** The section of the i-th piece: 0 the weapon, 1 armor, 2 jewelry, 3 everything else, spare weapons included. */
  function Section(items: Items, ps: seq<Garment>, i: nat): (k: nat)
    requires i < |ps|
    ensures k <= 3
  {
    if i == FirstWeapon(items, ps, 0) then 0
    else match KindOf(items, ps[i].id)
      case Armor => 1
      case Jewelry => 2
      case _ => 3
  }

  /** `clothes_copy`; pieces of the last section get no initial durability. */
  function Copy(items: Items, p: Garment, section: nat): Worn {
    Worn(p, if section == 3 || p.id !in items then 0 else items[p.id].duration * DURATION_RATIO % U16, false)
  }

  /** Section `k` of the first `n` pieces, in their order. */
  function Part(items: Items, ps: seq<Garment>, k: nat, n: nat): seq<Worn>
    requires n <= |ps|
  {
    if n == 0 then []
    else Part(items, ps, k, n - 1) + (if Section(items, ps, n - 1) == k then [Copy(items, ps[n - 1], k)] else [])
  }

  /** The first `k` sections one after the other. */
  function Parts(items: Items, ps: seq<Garment>, k: nat): seq<Worn>
  {
    if k == 0 then [] else Parts(items, ps, k - 1) + Part(items, ps, k - 1, |ps|)
  }

  function Pieces(ws: seq<Worn>): (r: seq<Garment>)
    ensures |r| == |ws|
  {
    seq(|ws|, i requires 0 <= i < |ws| => ws[i].piece)
  }

  lemma {:induction false} PartsCount(items: Items, ps: seq<Garment>, n: nat)
    requires n <= |ps|
    ensures |Part(items, ps, 0, n)| + |Part(items, ps, 1, n)| + |Part(items, ps, 2, n)| + |Part(items, ps, 3, n)| == n
    decreases n
  {
    if n > 0 {
      PartsCount(items, ps, n - 1);
    }
  }

  lemma {:induction false} PartGrows(items: Items, ps: seq<Garment>, k: nat, i: nat, n: nat)
    requires i <= n <= |ps|
    ensures |Part(items, ps, k, i)| <= |Part(items, ps, k, n)|
    ensures i < n && Section(items, ps, i) == k ==> |Part(items, ps, k, i)| < |Part(items, ps, k, n)|
    decreases n
  {
    if i < n {
      PartGrows(items, ps, k, i, n - 1);
    }
  }

  lemma {:induction false} WeaponPart(items: Items, ps: seq<Garment>, n: nat)
    requires n <= |ps|
    ensures var w := FirstWeapon(items, ps, 0);
            Part(items, ps, 0, n) == if w < n then [Copy(items, ps[w], 0)] else []
    decreases n
  {
    if n > 0 {
      WeaponPart(items, ps, n - 1);
    }
  }

  /** Room for one more piece of section `k`. */
  lemma RoomForPiece(items: Items, ps: seq<Garment>, k: nat, i: nat)
    requires i < |ps| && Section(items, ps, i) == k
    ensures |Parts(items, ps, k)| + |Part(items, ps, k, i)| < |ps|
  {
    PartsCount(items, ps, |ps|);
    PartGrows(items, ps, k, i, |ps|);
    PartsSizes(items, ps);
  }

  lemma PartsSizes(items: Items, ps: seq<Garment>)
    ensures Parts(items, ps, 0) == []
    ensures Parts(items, ps, 1) == Part(items, ps, 0, |ps|)
    ensures Parts(items, ps, 2) == Part(items, ps, 0, |ps|) + Part(items, ps, 1, |ps|)
    ensures Parts(items, ps, 3) == Part(items, ps, 0, |ps|) + Part(items, ps, 1, |ps|) + Part(items, ps, 2, |ps|)
    ensures Parts(items, ps, 4) == Parts(items, ps, 3) + Part(items, ps, 3, |ps|)
  {
    assert Parts(items, ps, 1) == Parts(items, ps, 0) + Part(items, ps, 0, |ps|);
    assert Parts(items, ps, 2) == Parts(items, ps, 1) + Part(items, ps, 1, |ps|);
    assert Parts(items, ps, 3) == Parts(items, ps, 2) + Part(items, ps, 2, |ps|);
  }

  /** What the k-th of the later passes tests for a piece no earlier pass took. */
  predicate Takes(items: Items, id: nat, k: nat) {
    (k == 1 && KindOf(items, id) == Armor) || (k == 2 && KindOf(items, id) == Jewelry) || k == 3
  }

  lemma SectionTest(items: Items, ps: seq<Garment>, i: nat, k: nat)
    requires i < |ps| && 1 <= k <= Section(items, ps, i)
    ensures Takes(items, ps[i].id, k) <==> Section(items, ps, i) == k
  {
  }

  lemma PartStep(items: Items, ps: seq<Garment>, k: nat, i: nat, prior: seq<Worn>)
    requires i < |ps|
    ensures Section(items, ps, i) == k ==>
              prior + Part(items, ps, k, i + 1) == (prior + Part(items, ps, k, i)) + [Copy(items, ps[i], k)]
    ensures Section(items, ps, i) != k ==> Part(items, ps, k, i + 1) == Part(items, ps, k, i)
  {
  }

  /** The sections of all pieces. */
  function Sections(items: Items, ps: seq<Garment>): (r: seq<nat>)
    ensures |r| == |ps| && forall i :: 0 <= i < |ps| ==> r[i] == Section(items, ps, i)
  {
    seq(|ps|, i requires 0 <= i < |ps| => Section(items, ps, i))
  }

  /**
    The marks of a pass over sections `k` after `i` pieces: every earlier section is
    taken, and of this one the first `i`.
   */
  ghost predicate MarksAt(flags: seq<bool>, secs: seq<nat>, i: nat, k: nat) {
    |secs| <= |flags| && forall j :: 0 <= j < |secs| ==> flags[j] == (secs[j] < if j < i then k + 1 else k)
  }

  lemma MarkStep(flags: seq<bool>, secs: seq<nat>, i: nat, k: nat)
    requires MarksAt(flags, secs, i, k) && i < |secs|
    ensures flags[i] <==> secs[i] < k
    ensures secs[i] == k ==> MarksAt(flags[i := true], secs, i + 1, k)
    ensures secs[i] != k ==> MarksAt(flags, secs, i + 1, k)
  {
  }

  lemma PartsFit(items: Items, ps: seq<Garment>, k: nat)
    requires k <= 3
    ensures Parts(items, ps, k + 1) == Parts(items, ps, k) + Part(items, ps, k, |ps|)
    ensures |Parts(items, ps, k + 1)| <= |ps|
  {
    PartsTotal(items, ps);
    PartsGrow(items, ps, k + 1, 4);
  }

  lemma PartsTotal(items: Items, ps: seq<Garment>)
    ensures |Parts(items, ps, 4)| == |ps|
  {
    PartsSizes(items, ps);
    PartsCount(items, ps, |ps|);
  }

  lemma {:induction false} PartsGrow(items: Items, ps: seq<Garment>, k: nat, n: nat)
    requires k <= n
    ensures |Parts(items, ps, k)| <= |Parts(items, ps, n)|
    decreases n
  {
    if k < n {
      PartsGrow(items, ps, k, n - 1);
    }
  }

  /** A pass over section `k`, which starts at place `base`, has seen `i` pieces and placed `cnt` of them. */
  ghost predicate Filled(items: Items, ps: seq<Garment>, all: seq<Worn>, flags: seq<bool>, k: nat,
                         base: nat, i: nat, cnt: nat) {
    && |all| == |flags| == MAX_ON && i <= |ps| <= MAX_ON && 1 <= k <= 3
    && base == |Parts(items, ps, k)| && cnt == |Part(items, ps, k, i)| && base + cnt <= |ps|
    && all[..base + cnt] == Parts(items, ps, k) + Part(items, ps, k, i)
    && MarksAt(flags, Sections(items, ps), i, k)
  }

  lemma FillTakes(items: Items, ps: seq<Garment>, all: seq<Worn>, flags: seq<bool>, k: nat, base: nat, i: nat, cnt: nat)
    requires Filled(items, ps, all, flags, k, base, i, cnt) && i < |ps| && !flags[i] && Takes(items, ps[i].id, k)
    ensures base + cnt < |ps|
    ensures Filled(items, ps, all[base + cnt := Copy(items, ps[i], k)], flags[i := true], k, base, i + 1, cnt + 1)
  {
    MarkStep(flags, Sections(items, ps), i, k);
    SectionTest(items, ps, i, k);
    RoomForPiece(items, ps, k, i);
    PartStep(items, ps, k, i, Parts(items, ps, k));
    var c := Copy(items, ps[i], k);
    assert all[base + cnt := c][..base + cnt + 1] == all[..base + cnt] + [c];
  }

  lemma FillSkips(items: Items, ps: seq<Garment>, all: seq<Worn>, flags: seq<bool>, k: nat, base: nat, i: nat, cnt: nat)
    requires Filled(items, ps, all, flags, k, base, i, cnt) && i < |ps| && (flags[i] || !Takes(items, ps[i].id, k))
    ensures Filled(items, ps, all, flags, k, base, i + 1, cnt)
  {
    MarkStep(flags, Sections(items, ps), i, k);
    if !flags[i] {
      SectionTest(items, ps, i, k);
    }
    PartStep(items, ps, k, i, []);
  }

  lemma FirstPass(items: Items, ps: seq<Garment>, all: seq<Worn>, flags: seq<bool>, w: nat)
    requires |all| == |flags| == MAX_ON && |ps| <= MAX_ON && w <= |all| && all[..w] == Part(items, ps, 0, |ps|)
    requires forall i :: 0 <= i < |ps| ==> flags[i] == (Section(items, ps, i) == 0)
    ensures Filled(items, ps, all, flags, 1, w, 0, 0)
  {
    PartsFit(items, ps, 0);
    assert Parts(items, ps, 1) == Part(items, ps, 0, |ps|);
  }

  /** The end of one pass is the beginning of the next. */
  lemma NextPass(items: Items, ps: seq<Garment>, all: seq<Worn>, flags: seq<bool>, k: nat, base: nat, cnt: nat)
    requires Filled(items, ps, all, flags, k, base, |ps|, cnt) && k < 3
    ensures Filled(items, ps, all, flags, k + 1, base + cnt, 0, 0)
  {
    PartsFit(items, ps, k);
  }

  /** After the last pass every piece has its place. */
  lemma LastPass(items: Items, ps: seq<Garment>, all: seq<Worn>, flags: seq<bool>, base: nat, cnt: nat)
    requires Filled(items, ps, all, flags, 3, base, |ps|, cnt)
    ensures all[..|ps|] == Parts(items, ps, 4) && base + cnt == |ps|
  {
    PartsFit(items, ps, 3);
    PartsTotal(items, ps);
  }

  class ClothesInfo {
    var clothes: array<Worn>
    var clothesCnt: nat
    var weaponCnt: nat
    var armorCnt: nat
    var jewelryCnt: nat

    ghost predicate Valid()
      reads this
    {
      clothes.Length == MAX_ON && weaponCnt + armorCnt + jewelryCnt <= clothesCnt <= MAX_ON
    }

    ghost function Contents(): seq<Worn>
      reads this, clothes
      requires Valid()
    {
      clothes[..clothesCnt]
    }

    constructor ()
      ensures Valid() && fresh(clothes) && Contents() == []
    {
      clothes := new Worn[MAX_ON](_ => Worn(Garment(0, 0, 0, 0), 0, false));
      clothesCnt, weaponCnt, armorCnt, jewelryCnt := 0, 0, 0, 0;
    }

    /** `player_clothes_init`: four passes, each taking the pieces of its section that no earlier pass took. */
    method Init(items: Items, ps: seq<Garment>)
      requires Valid() && |ps| <= MAX_ON
      modifies this, clothes
      ensures Valid() && clothes == old(clothes)
      ensures Contents() == Parts(items, ps, 4)
      ensures weaponCnt == |Part(items, ps, 0, |ps|)| && armorCnt == |Part(items, ps, 1, |ps|)|
      ensures jewelryCnt == |Part(items, ps, 2, |ps|)|
    {
      weaponCnt, armorCnt, jewelryCnt := 0, 0, 0;
      clothesCnt := |ps|;
      var flag := new bool[MAX_ON](_ => false);
      ghost var all, flags := FillWeapon(items, ps, flag);
      var cnt;
      cnt, all, flags := FillSection(items, ps, flag, 1, weaponCnt, all, flags);
      NextPass(items, ps, all, flags, 1, weaponCnt, cnt);
      armorCnt := cnt;
      cnt, all, flags := FillSection(items, ps, flag, 2, weaponCnt + armorCnt, all, flags);
      NextPass(items, ps, all, flags, 2, weaponCnt + armorCnt, cnt);
      jewelryCnt := cnt;
      cnt, all, flags := FillSection(items, ps, flag, 3, weaponCnt + armorCnt + jewelryCnt, all, flags);
      LastPass(items, ps, all, flags, weaponCnt + armorCnt + jewelryCnt, cnt);
    }

    /** Pass one stops at the first weapon. */
    method FillWeapon(items: Items, ps: seq<Garment>, flag: array<bool>)
      returns (ghost all: seq<Worn>, ghost flags: seq<bool>)
      requires clothes.Length == flag.Length == MAX_ON && |ps| <= MAX_ON
      requires forall i :: 0 <= i < MAX_ON ==> !flag[i]
      requires weaponCnt == 0
      modifies clothes, flag, this`weaponCnt
      ensures weaponCnt == |Part(items, ps, 0, |ps|)| && clothes[..] == all && flag[..] == flags
      ensures Filled(items, ps, all, flags, 1, weaponCnt, 0, 0)
    {
      var w := FirstWeapon(items, ps, 0);
      WeaponPart(items, ps, |ps|);
      for i := 0 to |ps|
        invariant i <= w && weaponCnt == 0
        invariant forall k :: 0 <= k < MAX_ON ==> !flag[k]
      {
        if ps[i].id in items && items[ps[i].id].part == 4 {
          assert i == w;
          clothes[weaponCnt] := Copy(items, ps[i], 0);
          weaponCnt := 1;
          flag[i] := true;
          break;
        }
      }
      all, flags := clothes[..], flag[..];
      FirstPass(items, ps, all, flags, weaponCnt);
    }

    /** Passes two to four; the last one takes whatever is left. */
    method FillSection(items: Items, ps: seq<Garment>, flag: array<bool>, k: nat, base: nat,
                       ghost start: seq<Worn>, ghost marks: seq<bool>)
      returns (cnt: nat, ghost all: seq<Worn>, ghost flags: seq<bool>)
      requires clothes.Length == flag.Length == MAX_ON && clothes[..] == start && flag[..] == marks
      requires Filled(items, ps, start, marks, k, base, 0, 0)
      modifies clothes, flag
      ensures clothes[..] == all && flag[..] == flags && Filled(items, ps, all, flags, k, base, |ps|, cnt)
    {
      cnt, all, flags := 0, start, marks;
      for i := 0 to |ps|
        invariant clothes[..] == all && flag[..] == flags && Filled(items, ps, all, flags, k, base, i, cnt)
      {
        if flag[i] {
          FillSkips(items, ps, all, flags, k, base, i, cnt);
          continue;
        }
        if !Takes(items, ps[i].id, k) {
          FillSkips(items, ps, all, flags, k, base, i, cnt);
        } else {
          FillTakes(items, ps, all, flags, k, base, i, cnt);
          all, flags := all[base + cnt := Copy(items, ps[i], k)], flags[i := true];
          clothes[base + cnt] := Copy(items, ps[i], k);
          flag[i] := true;
          cnt := cnt + 1;
        }
      }
    }

    /** The jewelry loop of `player_clothes_duration_chg`. */
    method WearJewelry(ghost l: Layout)
      requires Valid() && l == Layout(Contents(), weaponCnt, armorCnt, jewelryCnt)
      modifies clothes
      ensures forall j :: 0 <= j < clothesCnt ==>
                clothes[j] == if SectionAt(l, j) == 2 then Lose(l.worn[j], JEWELRY_LOSS) else l.worn[j]
    {
      var first := weaponCnt + armorCnt;
      for i := 0 to jewelryCnt
        invariant forall j :: 0 <= j < clothesCnt ==>
                    clothes[j] == if first <= j < first + i then Lose(l.worn[j], JEWELRY_LOSS) else l.worn[j]
      {
        clothes[first + i] := Lose(clothes[first + i], JEWELRY_LOSS);
      }
    }

    /** The loop over all clothes. */
    method WearAll(ghost l: Layout)
      requires Valid() && l == Layout(Contents(), weaponCnt, armorCnt, jewelryCnt)
      modifies clothes
      ensures forall j :: 0 <= j < clothesCnt ==> clothes[j] == Lose(l.worn[j], l.worn[j].piece.duration / 5)
    {
      for i := 0 to clothesCnt
        invariant forall j :: 0 <= j < clothesCnt ==>
                    clothes[j] == if j < i then Lose(l.worn[j], l.worn[j].piece.duration / 5) else l.worn[j]
      {
        clothes[i] := Lose(clothes[i], clothes[i].piece.duration / 5);
      }
    }

    /** The armor loop, with a roll for every piece. */
    method WearArmor(items: Items, ghost l: Layout, rolls: seq<nat>)
      requires Valid() && l == Layout(Contents(), weaponCnt, armorCnt, jewelryCnt) && |rolls| == clothesCnt
      modifies clothes
      ensures forall j :: 0 <= j < clothesCnt ==> clothes[j] == Damage(items, l, ArmorLoss, rolls, j)
    {
      for i := weaponCnt to weaponCnt + armorCnt
        invariant forall j :: 0 <= j < clothesCnt ==>
                    clothes[j] == if weaponCnt <= j < i then Damage(items, l, ArmorLoss, rolls, j) else l.worn[j]
      {
        if rolls[i] % 100 > ArmorOdds(items, clothes[i].piece.id) {
          continue;
        }
        clothes[i] := Lose(clothes[i], ARMOR_LOSS);
      }
    }

    /** `player_clothes_duration_chg`; `rolls` are its rand() values, one per tested piece. */
    method DurationChange(items: Items, kind: Loss, rolls: seq<nat>)
      requires Valid() && |rolls| == clothesCnt
      modifies clothes
      ensures Valid() && Contents() == Damaged(items, Layout(old(Contents()), weaponCnt, armorCnt, jewelryCnt),
                                        kind, rolls)
    {
      ghost var l := Layout(Contents(), weaponCnt, armorCnt, jewelryCnt);
      if kind == WeaponLoss {
        if weaponCnt != 0 {
          if rolls[0] % 100 < WeaponOdds(items, clothes[0].piece.id) {
            clothes[0] := Lose(clothes[0], WEAPON_LOSS);
          }
        }
      } else if kind == JewelryLoss {
        WearJewelry(l);
      } else if kind == FifthOfAll {
        WearAll(l);
      } else if armorCnt != 0 {
        WearArmor(items, l, rolls);
      }
    }
  }

  // ---- The layout --------------------------------------------------------

  /** The laid-out clothes with the three counts that mark the section boundaries. */
  datatype Layout = Layout(worn: seq<Worn>, weapons: nat, armors: nat, jewels: nat)

  /** The section a place of the layout belongs to. */
  function SectionAt(l: Layout, i: nat): nat {
    if i < l.weapons then 0 else if i < l.weapons + l.armors then 1
    else if i < l.weapons + l.armors + l.jewels then 2 else 3
  }

  function InitialLayout(items: Items, ps: seq<Garment>): Layout {
    Layout(Parts(items, ps, 4), |Part(items, ps, 0, |ps|)|, |Part(items, ps, 1, |ps|)|, |Part(items, ps, 2, |ps|)|)
  }

  /**
    The counts are exact boundaries: at most one weapon, then only armor, then
    only jewelry, then neither; a spare weapon only behind a worn one.
   */
  ghost predicate WellLaidOut(items: Items, l: Layout) {
    && l.weapons <= 1 && l.weapons + l.armors + l.jewels <= |l.worn|
    && forall i :: 0 <= i < |l.worn| ==>
         match SectionAt(l, i)
         case 0 => KindOf(items, l.worn[i].piece.id) == Weapon
         case 1 => KindOf(items, l.worn[i].piece.id) == Armor
         case 2 => KindOf(items, l.worn[i].piece.id) == Jewelry
         case _ => KindOf(items, l.worn[i].piece.id) == Plain
                   || (KindOf(items, l.worn[i].piece.id) == Weapon && l.weapons == 1)
  }

  lemma {:induction false} PartKinds(items: Items, ps: seq<Garment>, k: nat, n: nat)
    requires n <= |ps| && k <= 3
    ensures forall w :: w in Part(items, ps, k, n) ==>
              match k
              case 0 => KindOf(items, w.piece.id) == Weapon
              case 1 => KindOf(items, w.piece.id) == Armor
              case 2 => KindOf(items, w.piece.id) == Jewelry
              case _ => KindOf(items, w.piece.id) == Plain
                        || (KindOf(items, w.piece.id) == Weapon && FirstWeapon(items, ps, 0) < |ps|)
    decreases n
  {
    if n > 0 {
      PartKinds(items, ps, k, n - 1);
    }
  }

  /** The pieces of section `k` among the first `n`, order forgotten. */
  function Bag(items: Items, ps: seq<Garment>, k: nat, n: nat): multiset<Garment>
    requires n <= |ps|
  {
    multiset(Pieces(Part(items, ps, k, n)))
  }

  /** Each piece goes to exactly one section. */
  lemma {:induction false} SectionsPartition(items: Items, ps: seq<Garment>, n: nat)
    requires n <= |ps|
    ensures Bag(items, ps, 0, n) + Bag(items, ps, 1, n) + Bag(items, ps, 2, n) + Bag(items, ps, 3, n)
            == multiset(ps[..n])
    decreases n
  {
    if n > 0 {
      SectionsPartition(items, ps, n - 1);
      assert ps[..n] == ps[..n - 1] + [ps[n - 1]];
      PiecesOfNextPart(items, ps, 0, n);
      PiecesOfNextPart(items, ps, 1, n);
      PiecesOfNextPart(items, ps, 2, n);
      PiecesOfNextPart(items, ps, 3, n);
    }
  }

  lemma PiecesOfNextPart(items: Items, ps: seq<Garment>, k: nat, n: nat)
    requires 0 < n <= |ps|
    ensures Bag(items, ps, k, n) == Bag(items, ps, k, n - 1)
            + (if Section(items, ps, n - 1) == k then multiset{ps[n - 1]} else multiset{})
  {
    if Section(items, ps, n - 1) == k {
      assert Pieces(Part(items, ps, k, n)) == Pieces(Part(items, ps, k, n - 1)) + [ps[n - 1]];
    } else {
      assert Part(items, ps, k, n) == Part(items, ps, k, n - 1);
    }
  }

  lemma PiecesAppend(a: seq<Worn>, b: seq<Worn>)
    ensures Pieces(a + b) == Pieces(a) + Pieces(b)
  {
  }

  /**
    The initial layout loses no piece and invents none, for any clothes list,
    and its counts are exact section boundaries.
   */
  lemma InitIsAPartition(items: Items, ps: seq<Garment>)
    ensures multiset(Pieces(InitialLayout(items, ps).worn)) == multiset(ps)
    ensures WellLaidOut(items, InitialLayout(items, ps))
  {
    var n := |ps|;
    var a, b, c, d := Part(items, ps, 0, n), Part(items, ps, 1, n), Part(items, ps, 2, n), Part(items, ps, 3, n);
    PartsSizes(items, ps);
    WeaponPart(items, ps, n);
    PiecesAppend(a, b);
    PiecesAppend(a + b, c);
    PiecesAppend(a + b + c, d);
    SectionsPartition(items, ps, n);
    assert ps[..n] == ps;
    PartKinds(items, ps, 0, n);
    PartKinds(items, ps, 1, n);
    PartKinds(items, ps, 2, n);
    PartKinds(items, ps, 3, n);
    FourBlocks(a, b, c, d);
  }

  lemma FourBlocks(a: seq<Worn>, b: seq<Worn>, c: seq<Worn>, d: seq<Worn>)
    ensures var l := Layout(a + b + c + d, |a|, |b|, |c|);
            forall i :: 0 <= i < |l.worn| ==>
              match SectionAt(l, i)
              case 0 => l.worn[i] in a
              case 1 => l.worn[i] in b
              case 2 => l.worn[i] in c
              case _ => l.worn[i] in d
  {
  }

  // ---- Durability ---------------------------------------------------------

  datatype Loss = WeaponLoss | ArmorLoss | JewelryLoss | FifthOfAll

  /** Lowers the durability by `loss`, not below zero. */
  function Lose(w: Worn, loss: nat): Worn {
    Worn(w.piece.(duration := if w.piece.duration > loss then w.piece.duration - loss else 0), w.initDuration, true)
  }

  function Quality(items: Items, id: nat): nat { if id in items then items[id].quality else 0 }

  function WeaponOdds(items: Items, id: nat): nat {
    match Quality(items, id)
    case 2 => 85
    case 3 => 60
    case 4 => 50
    case _ => 100
  }

  function ArmorOdds(items: Items, id: nat): nat {
    match Quality(items, id)
    case 2 => 32
    case 3 => 28
    case 4 => 23
    case _ => 35
  }

  /** The i-th piece after a loss. */
  function Damage(items: Items, l: Layout, kind: Loss, rolls: seq<nat>, i: nat): Worn
    requires i < |l.worn| == |rolls|
  {
    var w := l.worn[i];
    match kind
    case FifthOfAll => Lose(w, w.piece.duration / 5)
    case WeaponLoss =>
      if i == 0 && l.weapons != 0 && rolls[i] % 100 < WeaponOdds(items, w.piece.id) then Lose(w, WEAPON_LOSS) else w
    case JewelryLoss => if SectionAt(l, i) == 2 then Lose(w, JEWELRY_LOSS) else w
    case ArmorLoss =>
      if SectionAt(l, i) == 1 && rolls[i] % 100 <= ArmorOdds(items, w.piece.id) then Lose(w, ARMOR_LOSS) else w
  }

  function Damaged(items: Items, l: Layout, kind: Loss, rolls: seq<nat>): (r: seq<Worn>)
    requires |l.worn| == |rolls|
    ensures |r| == |l.worn|
  {
    seq(|l.worn|, i requires 0 <= i < |l.worn| => Damage(items, l, kind, rolls, i))
  }

  /** The sections a loss is meant for. */
  function SectionsOf(kind: Loss): set<nat> {
    match kind
    case WeaponLoss => {0}
    case ArmorLoss => {1}
    case JewelryLoss => {2}
    case FifthOfAll => {0, 1, 2, 3}
  }

  datatype Blow = Blow(kind: Loss, rolls: seq<nat>)

  /** The clothes after a series of losses. */
  function AfterBlows(items: Items, l: Layout, blows: seq<Blow>): (r: Layout)
    requires forall b :: b in blows ==> |b.rolls| == |l.worn|
    ensures |r.worn| == |l.worn| && r.weapons == l.weapons && r.armors == l.armors && r.jewels == l.jewels
    decreases |blows|
  {
    if blows == [] then l
    else
      var rest := AfterBlows(items, l, blows[..|blows| - 1]);
      rest.(worn := Damaged(items, rest, blows[|blows| - 1].kind, blows[|blows| - 1].rolls))
  }

  /**
    However many losses hit the clothes: a piece outside the hit sections is
    untouched, no durability ever rises, nothing but durability and the change
    mark is altered, and the section boundaries stay exact.
   */
  lemma {:induction false} BlowsKeepLayout(items: Items, l: Layout, blows: seq<Blow>)
    requires WellLaidOut(items, l) && forall b :: b in blows ==> |b.rolls| == |l.worn|
    ensures var r := AfterBlows(items, l, blows);
            && WellLaidOut(items, r)
            && forall i :: 0 <= i < |l.worn| ==>
                 && r.worn[i].piece.duration <= l.worn[i].piece.duration
                 && r.worn[i].piece.(duration := 0) == l.worn[i].piece.(duration := 0)
                 && r.worn[i].initDuration == l.worn[i].initDuration
                 && ((forall b :: b in blows ==> SectionAt(l, i) !in SectionsOf(b.kind)) ==> r.worn[i] == l.worn[i])
    decreases |blows|
  {
    if blows != [] {
      var earlier, last := blows[..|blows| - 1], blows[|blows| - 1];
      assert last in blows && forall b :: b in earlier ==> b in blows;
      BlowsKeepLayout(items, l, earlier);
      BlowKeepsLayout(items, AfterBlows(items, l, earlier), last);
    }
  }

  lemma BlowKeepsLayout(items: Items, l: Layout, b: Blow)
    requires WellLaidOut(items, l) && |b.rolls| == |l.worn|
    ensures var r := l.(worn := Damaged(items, l, b.kind, b.rolls));
            && WellLaidOut(items, r)
            && forall i :: 0 <= i < |l.worn| ==>
                 && r.worn[i].piece.duration <= l.worn[i].piece.duration
                 && r.worn[i].piece.(duration := 0) == l.worn[i].piece.(duration := 0)
                 && r.worn[i].initDuration == l.worn[i].initDuration
                 && (SectionAt(l, i) !in SectionsOf(b.kind) ==> r.worn[i] == l.worn[i])
  {
    forall i | 0 <= i < |l.worn|
      ensures var w := Damage(items, l, b.kind, b.rolls, i);
              && w.piece.duration <= l.worn[i].piece.duration
              && w.piece.(duration := 0) == l.worn[i].piece.(duration := 0)
              && w.initDuration == l.worn[i].initDuration
              && w.piece.id == l.worn[i].piece.id
              && (SectionAt(l, i) !in SectionsOf(b.kind) ==> w == l.worn[i])
    {
    }
  }
}
