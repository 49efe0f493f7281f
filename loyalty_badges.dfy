/** The table from loyalty-programme names to badge image URLs. */
module LoyaltyBadges {
  import opened Wrappers

  const BadgeBase: string := "https://storage.googleapis.com/synxis-demo-images-2024/LoyaltyPrograms/"

  const LoyaltyBadgeMapping: map<string, string> := map[
    "Marriott Bonvoy" := BadgeBase + "MarriottBonvoy.png",
    "Hilton Honors" := BadgeBase + "HiltonHonors.png",
    "IHG Rewards" := BadgeBase + "IHGRewards.png",
    "Wyndham Rewards" := BadgeBase + "WyndhamRewards.png",
    "Vale Rewards" := BadgeBase + "ValeRewards.png"
  ]

  /** `getLoyaltyBadgeUrl`: the listed URL, or `undefined` for any other name. */
  function GetLoyaltyBadgeUrl(program: string): (r: Option<string>)
    ensures r.Some? <==> program in LoyaltyBadgeMapping
    ensures r.Some? ==> r.value == LoyaltyBadgeMapping[program]
  {
    if program in LoyaltyBadgeMapping then Some(LoyaltyBadgeMapping[program]) else None
  }

  /** `hasLoyaltyBadge`: membership of the name in the table. */
  function HasLoyaltyBadge(program: string): (b: bool)
    ensures b <==> GetLoyaltyBadgeUrl(program).Some?
  {
    program in LoyaltyBadgeMapping
  }

  /** The five programmes and their badges; the table has exactly these keys. */
  lemma BadgeTable()
    ensures GetLoyaltyBadgeUrl("Marriott Bonvoy") == Some(BadgeBase + "MarriottBonvoy.png")
    ensures GetLoyaltyBadgeUrl("Hilton Honors") == Some(BadgeBase + "HiltonHonors.png")
    ensures GetLoyaltyBadgeUrl("IHG Rewards") == Some(BadgeBase + "IHGRewards.png")
    ensures GetLoyaltyBadgeUrl("Wyndham Rewards") == Some(BadgeBase + "WyndhamRewards.png")
    ensures GetLoyaltyBadgeUrl("Vale Rewards") == Some(BadgeBase + "ValeRewards.png")
    ensures LoyaltyBadgeMapping.Keys
      == {"Marriott Bonvoy", "Hilton Honors", "IHG Rewards", "Wyndham Rewards", "Vale Rewards"}
    ensures |LoyaltyBadgeMapping| == 5
  {
    assert "Marriott Bonvoy"[0] != "IHG Rewards"[0] && "Marriott Bonvoy"[0] != "Vale Rewards"[0];
    assert "Hilton Honors"[0] != "Wyndham Rewards"[0] && "Hilton Honors"[0] != "Vale Rewards"[0];
    assert "IHG Rewards"[0] != "Vale Rewards"[0] && "Marriott Bonvoy"[0] != "Wyndham Rewards"[0];
  }

  /** The lookup is exact: a name in other letter case has no badge. */
  lemma LookupIsCaseSensitive()
    ensures GetLoyaltyBadgeUrl("marriott bonvoy") == None
    ensures GetLoyaltyBadgeUrl("HILTON HONORS") == None
  {
    assert "marriott bonvoy"[0] != "Marriott Bonvoy"[0];
    assert "HILTON HONORS"[1] != "Hilton Honors"[1];
  }
}
