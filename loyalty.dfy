/**
 * The "Suki Rewards" card of components/buyer/loyalty-widget.tsx: the
 * gradient of the member's tier, the points needed for the next tier, and
 * the tier's name. The progress bar's percentage is floating point and is
 * left out.
 */
module Loyalty {
  import opened Text

  const BronzeColor: string := "from-amber-600 to-amber-700"
  const SilverColor: string := "from-slate-400 to-slate-500"
  const GoldColor: string := "from-yellow-400 to-yellow-500"
  const DefaultColor: string := "from-gray-400 to-gray-500"

  /** `getTierColor(tier)`: one gradient per tier, gray for an unknown one. */
  function TierColor(tier: string): (c: string)
    ensures c == BronzeColor <==> tier == "bronze"
    ensures c == SilverColor <==> tier == "silver"
    ensures c == GoldColor <==> tier == "gold"
    ensures c == DefaultColor <==> tier != "bronze" && tier != "silver" && tier != "gold"
  {
    match tier
    case "bronze" => BronzeColor
    case "silver" => SilverColor
    case "gold" => GoldColor
    case _ => DefaultColor
  }

  /** `getTierThreshold(tier)`: an unknown tier counts like bronze. */
  function Threshold(tier: string): (t: nat)
    ensures t == 1000 <==> tier == "silver"
    ensures t == 2000 <==> tier == "gold"
    ensures t == 500 <==> tier != "silver" && tier != "gold"
  {
    match tier
    case "bronze" => 500
    case "silver" => 1000
    case "gold" => 2000
    case _ => 500
  }

  /** `nextTier`: gold stays gold, silver moves to gold, everything else to silver. */
  function NextTier(tier: string): (n: string)
    ensures n == "gold" <==> tier == "gold" || tier == "silver"
    ensures n == "silver" <==> tier != "gold" && tier != "silver"
    ensures n != "bronze"
  {
    if tier == "gold" then "gold" else if tier == "silver" then "gold" else "silver"
  }

  /** The next tier asks for more points, except at the top, where it is the same tier. */
  lemma NextThresholdGrows(tier: string)
    ensures tier != "gold" ==> Threshold(NextTier(tier)) > Threshold(tier)
    ensures tier == "gold" ==> Threshold(NextTier(tier)) == Threshold(tier)
  {
  }

  /** "{nextThreshold - points} points to {nextTier} tier": may be negative. */
  function PointsRemaining(tier: string, points: int): (r: int)
    ensures r + points == Threshold(NextTier(tier))
    ensures tier == "gold" && points > 2000 ==> r < 0
    ensures points <= Threshold(tier) ==> r >= 0
  {
    Threshold(NextTier(tier)) - points
  }

  /** A gold member past 2000 points is told a negative number of points. */
  lemma GoldOverflowExample()
    ensures PointsRemaining("gold", 2500) == -500
  {
  }

  /** "{Tier} Member": the tier with its first letter upper-cased. */
  function TierTitle(tier: string): (r: string)
    ensures |r| == |tier|
    ensures tier != [] ==> r[0] == UpperChar(tier[0]) && r[1..] == tier[1..]
  {
    if tier == [] then [] else [UpperChar(tier[0])] + tier[1..]
  }

  /** Lower-casing the title gives back a lower-case tier name. */
  lemma TitleRoundTrip(tier: string)
    requires forall i :: 0 <= i < |tier| ==> !IsUpper(tier[i])
    ensures Lower(TierTitle(tier)) == tier
  {
    var t := TierTitle(tier);
    forall i | 0 <= i < |tier|
      ensures Lower(t)[i] == tier[i]
    {
      if i == 0 {
        var c := tier[0];
        if IsLower(c) {
          assert UpperChar(c) as int == c as int - 32;
        }
      }
    }
  }
}
