/** Display vocabulary shared by the result views: the text tones and badge
    variants they choose between, and the marks they print. */
module Display {
  /** `text-success` / `text-destructive` */
  datatype Tone = SuccessText | DestructiveText

  /** The `variant` of a `Badge`. */
  datatype BadgeVariant = Default | Destructive

  const UpArrow: string := "\U{2B06}\U{FE0F}"
  const DownArrow: string := "\U{2B07}\U{FE0F}"
  const FilledMark: string := "\U{2705}"
  const OpenMark: string := "\U{274C}"
  const SupportLabel: string := "\U{1F7E2} Support"
  const ResistanceLabel: string := "\U{1F534} Resistance"
  const DemandLabel: string := "\U{1F4C8} Demand"
  const SupplyLabel: string := "\U{1F4C9} Supply"
  const Star: string := "\U{2B50}"

  /** `d > 0 ? "+" : ""` before a signed percentage. */
  function SignPrefix(d: real): (p: string)
    ensures p == "+" <==> d > 0.0
    ensures p == "" <==> d <= 0.0
  {
    if d > 0.0 then "+" else ""
  }
}
