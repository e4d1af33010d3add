/** The screen-A statistics the seed generator logs (src/lib/localData.ts):
    how many plates of each colour and each status screen A gets. */
module SeedStats {
  import opened Wrappers
  import opened Records
  import opened Seqs
  import opened SeedData

  function HasColor(c: string): Device -> bool
  {
    (d: Device) => d.pressurePlateTypeColor == c
  }

  function HasStatus(st: string): Device -> bool
  {
    (d: Device) => d.pressurePlateStatus == Some(st)
  }

  function OnScreen(screen: string): Device -> bool
  {
    (d: Device) => d.protectionScreen == screen
  }

  /** A predicate that holds of the plates with index in [lo, hi) and of no
      other is counted `hi - lo` times among the first n, cut to n. */
  lemma {:induction false} CountBand(ds: seq<Device>, n: nat, p: Device -> bool, lo: nat, hi: nat)
    requires n <= |ds| && lo <= hi
    requires forall k :: 0 <= k < n ==> (p(ds[k]) <==> lo <= k < hi)
    ensures Count(ds[..n], p) == if n <= lo then 0 else if n <= hi then n - lo else hi - lo
  {
    if n > 0 {
      CountBand(ds, n - 1, p, lo, hi);
      assert ds[..n] == ds[..n - 1] + [ds[n - 1]];
      FilterSnoc(ds[..n - 1], ds[n - 1], p);
    }
  }

  /** A predicate that fails exactly at every fourth index holds of 3 in 4 of the first n. */
  lemma {:induction false} CountThreeInFour(ds: seq<Device>, n: nat, p: Device -> bool)
    requires n <= |ds|
    requires forall k :: 0 <= k < n ==> (p(ds[k]) <==> k % 4 != 3)
    ensures Count(ds[..n], p) == n - n / 4
  {
    if n > 0 {
      CountThreeInFour(ds, n - 1, p);
      assert ds[..n] == ds[..n - 1] + [ds[n - 1]];
      FilterSnoc(ds[..n - 1], ds[n - 1], p);
      var q, r := (n - 1) / 4, (n - 1) % 4;
      if r < 3 {
        DivMod4(n, q, r + 1);
      } else {
        DivMod4(n, q + 1, 0);
      }
    }
  }

  /** A predicate that holds exactly at every fourth index holds of n / 4 of the first n. */
  lemma {:induction false} CountOneInFour(ds: seq<Device>, n: nat, p: Device -> bool)
    requires n <= |ds|
    requires forall k :: 0 <= k < n ==> (p(ds[k]) <==> k % 4 == 3)
    ensures Count(ds[..n], p) == n / 4
  {
    if n > 0 {
      CountOneInFour(ds, n - 1, p);
      assert ds[..n] == ds[..n - 1] + [ds[n - 1]];
      FilterSnoc(ds[..n - 1], ds[n - 1], p);
      var q, r := (n - 1) / 4, (n - 1) % 4;
      if r < 3 {
        DivMod4(n, q, r + 1);
      } else {
        DivMod4(n, q + 1, 0);
      }
    }
  }

  /** Screen A's colour counts, from the colour of each index. */
  lemma ColorCountsA(ds: seq<Device>)
    requires COUNT_A <= |ds|
    requires forall k :: 0 <= k < COUNT_A ==> ds[k].pressurePlateTypeColor == ColorA(k + 1)
    ensures Count(ds[..COUNT_A], HasColor("red")) == 30
    ensures Count(ds[..COUNT_A], HasColor("yellow")) == 28
    ensures Count(ds[..COUNT_A], HasColor("gray")) == 15
    ensures Count(ds[..COUNT_A], HasColor("black")) == 8
  {
    ColorCount(ds, "red", 0, 30);
    ColorCount(ds, "yellow", 30, 58);
    ColorCount(ds, "gray", 58, 73);
    ColorCount(ds, "black", 73, COUNT_A);
  }

  /** The four colour bands of screen A, by index from 1; the four names have different lengths. */
  lemma ColorBand(c: string, lo: nat, hi: nat, idx: int)
    requires (c, lo, hi) == ("red", 0, 30) || (c, lo, hi) == ("yellow", 30, 58)
          || (c, lo, hi) == ("gray", 58, 73) || (c, lo, hi) == ("black", 73, COUNT_A)
    requires 1 <= idx <= COUNT_A
    ensures ColorA(idx) == c <==> lo < idx <= hi
  {
    assert |"red"| == 3 && |"yellow"| == 6 && |"gray"| == 4 && |"black"| == 5;
  }

  lemma ColorCount(ds: seq<Device>, c: string, lo: nat, hi: nat)
    requires (c, lo, hi) == ("red", 0, 30) || (c, lo, hi) == ("yellow", 30, 58)
          || (c, lo, hi) == ("gray", 58, 73) || (c, lo, hi) == ("black", 73, COUNT_A)
    requires COUNT_A <= |ds|
    requires forall k :: 0 <= k < COUNT_A ==> ds[k].pressurePlateTypeColor == ColorA(k + 1)
    ensures Count(ds[..COUNT_A], HasColor(c)) == hi - lo
  {
    forall k | 0 <= k < COUNT_A
      ensures HasColor(c)(ds[k]) <==> lo <= k < hi
    {
      ColorBand(c, lo, hi, k + 1);
    }
    CountBand(ds, COUNT_A, HasColor(c), lo, hi);
  }

  /** Screen A's status counts, from the status of each index. */
  lemma StatusCountsA(ds: seq<Device>)
    requires COUNT_A <= |ds|
    requires forall k :: 0 <= k < COUNT_A ==> ds[k].pressurePlateStatus == Some(StatusA(k + 1))
    ensures Count(ds[..COUNT_A], HasStatus(ON)) == 61
    ensures Count(ds[..COUNT_A], HasStatus(OFF)) == 20
  {
    CountThreeInFour(ds, COUNT_A, HasStatus(ON));
    CountOneInFour(ds, COUNT_A, HasStatus(OFF));
  }

  /** The statistics the seed logs for screen A: its plates are the first 81
      of the list, 30 red, 28 yellow, 15 gray and 8 black, 61 投入 and 20 退出. */
  lemma SeedStatsA(ds: seq<Device>, picks: seq<Picks>, now: string)
    requires SEED_COUNT <= |picks| && AllValid(picks) && |ds| == SEED_COUNT
    requires forall k :: 0 <= k < SEED_COUNT ==> ds[k] == SeedDevice(k, PlateNameOf(picks[k]), now)
    ensures Filter(ds, OnScreen(SCREEN_A)) == ds[..COUNT_A]
    ensures Count(ds[..COUNT_A], HasColor("red")) == 30
    ensures Count(ds[..COUNT_A], HasColor("yellow")) == 28
    ensures Count(ds[..COUNT_A], HasColor("gray")) == 15
    ensures Count(ds[..COUNT_A], HasColor("black")) == 8
    ensures Count(ds[..COUNT_A], HasStatus(ON)) == 61
    ensures Count(ds[..COUNT_A], HasStatus(OFF)) == 20
  {
    forall k | 0 <= k < COUNT_A
      ensures ds[k].pressurePlateTypeColor == ColorA(k + 1)
      ensures ds[k].pressurePlateStatus == Some(StatusA(k + 1))
    {
      SeedAFields(k, PlateNameOf(picks[k]), now);
    }
    forall k | 0 <= k < SEED_COUNT
      ensures ds[k].protectionScreen == SCREEN_A <==> k < COUNT_A
    {
      SeedScreenOf(k, PlateNameOf(picks[k]), now);
    }
    ColorCountsA(ds);
    StatusCountsA(ds);
    ScreenAFirst(ds);
  }

  /** A list whose first 81 plates, and only those, are on screen A filters to those 81. */
  lemma ScreenAFirst(ds: seq<Device>)
    requires COUNT_A <= |ds|
    requires forall k :: 0 <= k < |ds| ==> (ds[k].protectionScreen == SCREEN_A <==> k < COUNT_A)
    ensures Filter(ds, OnScreen(SCREEN_A)) == ds[..COUNT_A]
  {
    FilterPrefix(ds, COUNT_A, OnScreen(SCREEN_A));
  }

}
