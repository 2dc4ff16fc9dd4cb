// components/common/AlertStatusChip.tsx: the chip shown for an alert status.
module AlertStatusChip {

  datatype Colour = Success | Warning | Default
  datatype Variant = Filled | Outlined
  datatype Size = Small | Medium

  datatype ChipProps = ChipProps(text: string, colour: Colour, variant: Variant)

  const DefaultSize: Size := Small

  /**
   * getChipProps: the three statuses of the client get their own label and
   * style; only "active" is green and only "triggered" is amber; any other
   * status is shown as its raw text in the neutral outlined style.
   */
  function GetChipProps(status: string): (r: ChipProps)
    ensures r.colour == Success <==> status == "active"
    ensures r.colour == Warning <==> status == "triggered"
    ensures r.variant == Filled <==> status in {"active", "triggered"}
    ensures status !in {"active", "inactive", "triggered"} ==> r == ChipProps(status, Default, Outlined)
  {
    match status
    case "active" => ChipProps("Active", Success, Filled)
    case "inactive" => ChipProps("Inactive", Default, Outlined)
    case "triggered" => ChipProps("Triggered", Warning, Filled)
    case _ => ChipProps(status, Default, Outlined)
  }

  /** The backend's "paused" and "deleted" have no chip of their own: they show as raw text, like "inactive" is styled. */
  lemma BackendOnlyStatusesLookInactive()
    ensures GetChipProps("paused").colour == GetChipProps("inactive").colour
    ensures GetChipProps("paused").variant == GetChipProps("inactive").variant
    ensures GetChipProps("paused").text == "paused" && GetChipProps("deleted").text == "deleted"
  {
  }
}
