/** src/components/StatusIndicator.tsx: small status marks and badges. */
module StatusIndicator {
  /** The four fixed marks and their labels. */
  datatype StatusMark = FreshDot | TestedDot | FilledIcon | UnfilledIcon

  function MarkLabel(m: StatusMark): (text: string)
    ensures text in {"Fresh", "Tested", "Filled", "Open"}
  {
    match m
    case FreshDot => "Fresh"
    case TestedDot => "Tested"
    case FilledIcon => "Filled"
    case UnfilledIcon => "Open"
  }

  /** No two marks share a label. */
  lemma MarkLabelsDistinct(a: StatusMark, b: StatusMark)
    ensures MarkLabel(a) == MarkLabel(b) <==> a == b
  {
  }

  /** The bull/bear colour classes of the colour hook. */
  datatype BullBear = Bull | Bear

  datatype DirectionView = DirectionView(colour: BullBear, text: string)

  /** `direction === "up"` picks the bull colour and "Up"; anything else the
      bear colour and "Down". */
  function DirectionBadge(direction: string): (v: DirectionView)
    ensures v.colour == Bull <==> direction == "up"
    ensures v.text == (if direction == "up" then "Up" else "Down")
  {
    if direction == "up" then DirectionView(Bull, "Up") else DirectionView(Bear, "Down")
  }

  datatype BadgeConfig = BadgeConfig(caption: string, className: string)

  const TierBadgeConfig: map<string, BadgeConfig> := map[
    "lite" := BadgeConfig("FREE", "border-green-500/30 text-green-400"),
    "standard" := BadgeConfig("STD", "border-primary/30 text-primary"),
    "premium" := BadgeConfig("PRO", "border-yellow-500/30 text-yellow-400")
  ]

  /** `config[tier] || config.standard` */
  function TierBadge(tier: string): (c: BadgeConfig)
    ensures tier in TierBadgeConfig ==> c == TierBadgeConfig[tier]
    ensures tier !in TierBadgeConfig ==> c == TierBadgeConfig["standard"]
  {
    if tier in TierBadgeConfig then TierBadgeConfig[tier] else TierBadgeConfig["standard"]
  }

  /** The three tiers read FREE, STD and PRO, and any other tier id renders
      as STD rather than failing. */
  lemma TierBadgeLabels(other: string)
    requires other !in {"lite", "standard", "premium"}
    ensures TierBadge("lite").caption == "FREE"
    ensures TierBadge("standard").caption == "STD"
    ensures TierBadge("premium").caption == "PRO"
    ensures TierBadge(other) == TierBadge("standard")
  {
  }
}
