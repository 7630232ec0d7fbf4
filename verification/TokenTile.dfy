/**
 * The display helpers of the token tile (TokenTileCard.tsx): magnitude
 * tiering of numbers, the liquidity-lock summary, the token-age split,
 * the lock tier, the shortened address and the owner and risk labels.
 * Text formatting of numbers (`toFixed`, `toLocaleString`) is not modelled:
 * the helpers return the numbers that would be formatted.
 */
module TokenTile {
  import opened Wrappers

  // ---------------------------------------------------------------------
  // formatNumber
  // ---------------------------------------------------------------------

  const Thousand: real := 1000.0
  const Million: real := 1000000.0
  const Billion: real := 1000000000.0

  datatype Suffix = Billions | Millions | Thousands | NoSuffix

  /** The letter appended to the scaled number. */
  function SuffixText(s: Suffix): (t: string)
    ensures |t| <= 1
    ensures t == "" <==> s == NoSuffix
  {
    match s
    case Billions => "B"
    case Millions => "M"
    case Thousands => "K"
    case NoSuffix => ""
  }

  function Scale(s: Suffix): (k: real)
    ensures k > 0.0
  {
    match s
    case Billions => Billion
    case Millions => Million
    case Thousands => Thousand
    case NoSuffix => 1.0
  }

  /** A number as displayed: the scaled value (before rounding to 2 places) and its suffix. */
  datatype Scaled = Scaled(value: real, suffix: Suffix)

  /**
   * `formatNumber`: the tiers are checked from the largest down, so exactly
   * one applies; the shown value times its scale is the original number, and
   * in the K and M tiers it lies in [1, 1000).
   */
  function FormatNumber(num: real): (f: Scaled)
    ensures f.suffix == Billions <==> num >= Billion
    ensures f.suffix == Millions <==> Million <= num < Billion
    ensures f.suffix == Thousands <==> Thousand <= num < Million
    ensures f.suffix == NoSuffix <==> num < Thousand
    ensures f.value * Scale(f.suffix) == num
    ensures f.suffix != NoSuffix ==> f.value >= 1.0
    ensures f.suffix != Billions ==> f.value < 1000.0
  {
    if num >= Billion then Scaled(num / Billion, Billions)
    else if num >= Million then Scaled(num / Million, Millions)
    else if num >= Thousand then Scaled(num / Thousand, Thousands)
    else Scaled(num, NoSuffix)
  }

  /** Numbers at each tier boundary and inside a tier, with the letter shown. */
  lemma FormatNumberExamples()
    ensures FormatNumber(999.0) == Scaled(999.0, NoSuffix) && SuffixText(NoSuffix) == ""
    ensures FormatNumber(1000.0) == Scaled(1.0, Thousands) && SuffixText(Thousands) == "K"
    ensures FormatNumber(2500000.0) == Scaled(2.5, Millions) && SuffixText(Millions) == "M"
    ensures FormatNumber(3000000000000.0) == Scaled(3000.0, Billions) && SuffixText(Billions) == "B"
  {
  }

  // ---------------------------------------------------------------------
  // getLiquidityInfo
  // ---------------------------------------------------------------------

  /** One LP holder entry: whether its share is locked, and its share as a fraction. */
  datatype LpHolder = LpHolder(isLocked: bool, percent: real)

  /** One DEX entry; `liquidity` may be absent. */
  datatype DexEntry = DexEntry(name: string, liquidity: Option<real>)

  /**
   * A JSON-encoded list field of the token after parsing: missing (absent
   * or empty text, read as `'[]'`), a parsed list, or text whose parsing or
   * processing throws.
   */
  datatype ListField<T> = Missing | Parsed(items: seq<T>) | Invalid

  datatype LiquidityInfo = LiquidityInfo(
    lpHolders: seq<LpHolder>, dexInfo: seq<DexEntry>, totalLocked: real, totalLiquidity: real)

  /** What one holder adds to the locked total. */
  function LockedContribution(h: LpHolder): real
  {
    if h.isLocked then h.percent * 100.0 else 0.0
  }

  /** Σ (percent * 100) over the locked holders, accumulated left to right. */
  function TotalLocked(holders: seq<LpHolder>): real
  {
    if holders == [] then 0.0
    else TotalLocked(holders[..|holders| - 1]) + LockedContribution(holders[|holders| - 1])
  }

  /** `dexInfo[0]?.liquidity || 0`. */
  function FirstLiquidity(dex: seq<DexEntry>): (l: real)
    ensures dex == [] ==> l == 0.0
    ensures dex != [] && dex[0].liquidity.Some? ==> l == dex[0].liquidity.value
    ensures dex != [] && dex[0].liquidity.None? ==> l == 0.0
  {
    if dex == [] then 0.0
    else match dex[0].liquidity
      case Some(v) => v
      case None => 0.0
  }

  function ItemsOrEmpty<T>(field: ListField<T>): seq<T>
  {
    if field.Parsed? then field.items else []
  }

  /**
   * `getLiquidityInfo`: a missing field reads as an empty list; if either
   * field is invalid, the summary falls back to empty lists and zero totals.
   */
  function GetLiquidityInfo(holders: ListField<LpHolder>, dex: ListField<DexEntry>): (info: LiquidityInfo)
    ensures holders.Invalid? || dex.Invalid? ==> info == LiquidityInfo([], [], 0.0, 0.0)
    ensures !holders.Invalid? && !dex.Invalid? ==>
              && info.lpHolders == ItemsOrEmpty(holders)
              && info.dexInfo == ItemsOrEmpty(dex)
              && info.totalLocked == TotalLocked(info.lpHolders)
              && info.totalLiquidity == FirstLiquidity(info.dexInfo)
    ensures holders.Missing? && !dex.Invalid? ==> info.lpHolders == [] && info.totalLocked == 0.0
    ensures dex.Missing? && !holders.Invalid? ==> info.dexInfo == [] && info.totalLiquidity == 0.0
  {
    if holders.Invalid? || dex.Invalid? then LiquidityInfo([], [], 0.0, 0.0)
    else
      var lp, dx := ItemsOrEmpty(holders), ItemsOrEmpty(dex);
      LiquidityInfo(lp, dx, TotalLocked(lp), FirstLiquidity(dx))
  }

  /** The locked holders, in order. */
  function LockedOnly(holders: seq<LpHolder>): (r: seq<LpHolder>)
    ensures forall h :: h in r ==> h in holders && h.isLocked
    ensures forall h :: h in holders && h.isLocked ==> h in r
  {
    if holders == [] then []
    else
      assert forall h :: h in holders ==> h == holders[0] || h in holders[1..];
      (if holders[0].isLocked then [holders[0]] else []) + LockedOnly(holders[1..])
  }

  /** Every locked holder is kept with its multiplicity; every unlocked one is dropped. */
  lemma {:induction false} LockedOnlyCounts(holders: seq<LpHolder>)
    ensures forall h :: multiset(LockedOnly(holders))[h] == if h.isLocked then multiset(holders)[h] else 0
  {
    if holders != [] {
      var head := if holders[0].isLocked then [holders[0]] else [];
      LockedOnlyCounts(holders[1..]);
      assert holders == [holders[0]] + holders[1..];
      assert multiset(holders) == multiset{holders[0]} + multiset(holders[1..]);
      assert LockedOnly(holders) == head + LockedOnly(holders[1..]);
      assert multiset(LockedOnly(holders)) == multiset(head) + multiset(LockedOnly(holders[1..]));
    }
  }

  /** Filtering a concatenation filters each part: the locked holders keep their order. */
  lemma {:induction false} LockedOnlyAppend(a: seq<LpHolder>, b: seq<LpHolder>)
    ensures LockedOnly(a + b) == LockedOnly(a) + LockedOnly(b)
  {
    if a != [] {
      var head := if a[0].isLocked then [a[0]] else [];
      assert (a + b)[0] == a[0] && (a + b)[1..] == a[1..] + b;
      LockedOnlyAppend(a[1..], b);
      assert LockedOnly(a + b) == head + LockedOnly(a[1..] + b);
      assert LockedOnly(a) == head + LockedOnly(a[1..]);
    } else {
      assert a + b == b;
    }
  }

  /** Σ percent over all holders, locked or not. */
  function PercentSum(holders: seq<LpHolder>): real
  {
    if holders == [] then 0.0 else holders[0].percent + PercentSum(holders[1..])
  }

  /** The locked total of a concatenation is the sum of the two totals. */
  lemma {:induction false} TotalLockedAppend(a: seq<LpHolder>, b: seq<LpHolder>)
    ensures TotalLocked(a + b) == TotalLocked(a) + TotalLocked(b)
    decreases |b|
  {
    if b != [] {
      var ab, b' := a + b, b[..|b| - 1];
      assert ab[..|ab| - 1] == a + b';
      assert ab[|ab| - 1] == b[|b| - 1];
      TotalLockedAppend(a, b');
      assert TotalLocked(ab) == TotalLocked(a + b') + LockedContribution(b[|b| - 1]);
      assert TotalLocked(b) == TotalLocked(b') + LockedContribution(b[|b| - 1]);
    } else {
      assert a + b == a;
    }
  }

  /** Unlocked holders contribute nothing: only the locked ones are summed. */
  lemma {:induction false} TotalLockedCountsOnlyLocked(holders: seq<LpHolder>)
    ensures TotalLocked(holders) == TotalLocked(LockedOnly(holders))
  {
    if holders != [] {
      var h := holders[0];
      assert holders == [h] + holders[1..];
      TotalLockedAppend([h], holders[1..]);
      TotalLockedCountsOnlyLocked(holders[1..]);
      TotalLockedAppend(if h.isLocked then [h] else [], LockedOnly(holders[1..]));
      assert TotalLocked([h]) == TotalLocked([]) + LockedContribution(h);
    }
  }

  /** With no locked holder (in particular with none at all) the locked total is 0. */
  lemma {:induction false} NothingLockedIsZero(holders: seq<LpHolder>)
    requires forall i :: 0 <= i < |holders| ==> !holders[i].isLocked
    ensures TotalLocked(holders) == 0.0
  {
    if holders != [] {
      NothingLockedIsZero(holders[..|holders| - 1]);
    }
  }

  /**
   * With non-negative shares, the locked percentage lies between 0 and 100
   * times the total share.
   */
  lemma {:induction false} TotalLockedBounded(holders: seq<LpHolder>)
    requires forall i :: 0 <= i < |holders| ==> holders[i].percent >= 0.0
    ensures 0.0 <= TotalLocked(holders) <= 100.0 * PercentSum(holders)
  {
    if holders != [] {
      var h := holders[0];
      assert holders == [h] + holders[1..];
      TotalLockedAppend([h], holders[1..]);
      TotalLockedBounded(holders[1..]);
      assert TotalLocked([h]) == TotalLocked([]) + LockedContribution(h);
    }
  }

  // ---------------------------------------------------------------------
  // Token age
  // ---------------------------------------------------------------------

  /** JavaScript's `%`: the remainder takes the sign of the dividend. */
  function JsRemainder(a: int, b: int): (r: int)
    requires b > 0
    ensures a >= 0 ==> 0 <= r < b && a == (a / b) * b + r
    ensures a < 0 ==> -b < r <= 0 && a == -((-a) / b) * b + r
  {
    if a >= 0 then a % b else -((-a) % b)
  }

  /** The age badge: hours and minutes, or minutes alone when there is no whole hour. */
  datatype AgeText = HoursAndMinutes(hours: int, minutes: int) | MinutesOnly(minutes: int)

  /** `Math.floor(totalMinutes / 60)` and `totalMinutes % 60`. */
  function AgeParts(totalMinutes: int): (int, int)
  {
    (totalMinutes / 60, JsRemainder(totalMinutes, 60))
  }

  function AgeLabel(totalMinutes: int): (t: AgeText)
    ensures t.HoursAndMinutes? <==> totalMinutes >= 60
    ensures t.HoursAndMinutes? ==> (t.hours, t.minutes) == AgeParts(totalMinutes)
    ensures t.MinutesOnly? ==> t.minutes == AgeParts(totalMinutes).1
  {
    var (hours, minutes) := AgeParts(totalMinutes);
    if hours > 0 then HoursAndMinutes(hours, minutes) else MinutesOnly(minutes)
  }

  /** For a non-negative age the split is exact and the minutes are below 60. */
  lemma AgeSplitIsExact(totalMinutes: int)
    requires totalMinutes >= 0
    ensures AgeParts(totalMinutes).0 * 60 + AgeParts(totalMinutes).1 == totalMinutes
    ensures 0 <= AgeParts(totalMinutes).1 < 60
    ensures AgeLabel(totalMinutes).MinutesOnly? ==> AgeLabel(totalMinutes).minutes == totalMinutes
  {
  }

  /**
   * For a negative age the floor quotient and the truncated remainder do not
   * recombine: -61 minutes splits into -2 hours and -1 minute, shown as "-1m".
   */
  lemma NegativeAgeSplitIsInexact()
    ensures AgeParts(-61) == (-2, -1)
    ensures AgeParts(-61).0 * 60 + AgeParts(-61).1 != -61
    ensures AgeLabel(-61) == MinutesOnly(-1)
  {
  }

  // ---------------------------------------------------------------------
  // Lock tier, address, labels
  // ---------------------------------------------------------------------

  datatype LockTier = Green | Yellow | Red

  /** The colour of the locked-percentage badge; both thresholds are strict. */
  function LockTierOf(totalLocked: real): (t: LockTier)
    ensures t == Green <==> totalLocked > 90.0
    ensures t == Yellow <==> 50.0 < totalLocked <= 90.0
    ensures t == Red <==> totalLocked <= 50.0
  {
    if totalLocked > 90.0 then Green else if totalLocked > 50.0 then Yellow else Red
  }

  function TierRank(t: LockTier): nat
  {
    match t
    case Red => 0
    case Yellow => 1
    case Green => 2
  }

  /** More locked liquidity never gives a worse tier. */
  lemma LockTierMonotone(a: real, b: real)
    requires a <= b
    ensures TierRank(LockTierOf(a)) <= TierRank(LockTierOf(b))
  {
  }

  function Min(a: int, b: int): int
  {
    if a <= b then a else b
  }

  /** `s.slice(0, n)`: at most the first n characters. */
  function SliceFirst(s: string, n: nat): (r: string)
    ensures |r| == Min(|s|, n) && r == s[..|r|]
  {
    if |s| <= n then s else s[..n]
  }

  /** `s.slice(-n)`: at most the last n characters. */
  function SliceLast(s: string, n: nat): (r: string)
    ensures |r| == Min(|s|, n) && r == s[|s| - |r|..]
  {
    if |s| <= n then s else s[|s| - n..]
  }

  /**
   * The shortened address: its first 8 characters, "...", and its last 6
   * (fewer when the address is shorter).
   */
  function ShortAddress(address: string): (r: string)
    ensures |r| == Min(|address|, 8) + 3 + Min(|address|, 6)
    ensures r[..Min(|address|, 8)] == address[..Min(|address|, 8)]
    ensures r[Min(|address|, 8)..Min(|address|, 8) + 3] == "..."
    ensures r[|r| - Min(|address|, 6)..] == address[|address| - Min(|address|, 6)..]
  {
    SliceFirst(address, 8) + "..." + SliceLast(address, 6)
  }

  /** A 42-character address is shown as 17 characters. */
  lemma FullAddressShortensTo17(address: string)
    requires |address| == 42
    ensures |ShortAddress(address)| == 17
    ensures ShortAddress(address) == address[..8] + "..." + address[36..]
  {
  }

  const ZeroAddress: string := "0x0000000000000000000000000000000000000000"

  /** Ownership is renounced exactly when the owner is the all-zero address. */
  function OwnerLabel(owner: string): (text: string)
    ensures text == "Renounced" <==> owner == ZeroAddress
    ensures text == "Owned" <==> owner != ZeroAddress
  {
    if owner == ZeroAddress then "Renounced" else "Owned"
  }

  /** Upper case of an ASCII letter; every other character is kept. */
  function UpperChar(c: char): (u: char)
    ensures 'a' <= c <= 'z' ==> 'A' <= u <= 'Z' && u as int - 'A' as int == c as int - 'a' as int
    ensures !('a' <= c <= 'z') ==> u == c
  {
    if 'a' <= c <= 'z' then (c as int - 'a' as int + 'A' as int) as char else c
  }

  function ToUpper(s: string): (r: string)
    ensures |r| == |s|
    ensures forall i :: 0 <= i < |s| ==> r[i] == UpperChar(s[i])
  {
    seq(|s|, i requires 0 <= i < |s| => UpperChar(s[i]))
  }

  /** Upper-casing leaves no lower-case ASCII letter and is idempotent. */
  lemma ToUpperIsUpper(s: string)
    ensures forall i :: 0 <= i < |ToUpper(s)| ==> !('a' <= ToUpper(s)[i] <= 'z')
    ensures ToUpper(ToUpper(s)) == ToUpper(s)
  {
  }

  /** The risk badge: "HONEYPOT" for a honeypot, otherwise the risk level in upper case. */
  function RiskLabel(hpIsHoneypot: bool, riskLevel: string): (text: string)
    ensures hpIsHoneypot ==> text == "HONEYPOT"
    ensures !hpIsHoneypot ==> |text| == |riskLevel|
    ensures !hpIsHoneypot ==> forall i :: 0 <= i < |text| ==> text[i] == UpperChar(riskLevel[i])
  {
    if hpIsHoneypot then "HONEYPOT" else ToUpper(riskLevel)
  }

  /** The three risk levels the tile knows are shown as SAFE, WARNING and DANGER. */
  lemma KnownRiskLabels()
    ensures RiskLabel(false, "safe") == "SAFE"
    ensures RiskLabel(false, "warning") == "WARNING"
    ensures RiskLabel(false, "danger") == "DANGER"
  {
  }
}
