// components/ipo/IPOList.tsx: the IPO list's status mappings and its fetch
// state. The fetch outcome is a parameter.
module IPOList {
  import opened Wrappers
  import Models

  datatype Colour = Primary | Green | Red | Neutral

  /** getStatusColor: MUI's primary, success, error and default colours. */
  function StatusColour(status: string): (r: Colour)
    ensures r == Primary <==> status == Models.Announced
    ensures r == Green <==> status == Models.Listed
    ensures r == Red <==> status == Models.Cancelled
  {
    match status
    case "announced" => Primary
    case "listed" => Green
    case "cancelled" => Red
    case _ => Neutral
  }

  /** getStatusLabel: the three known statuses are capitalised, any other is shown raw. */
  function StatusLabel(status: string): (r: string)
    ensures status in {Models.Announced, Models.Listed, Models.Cancelled} ==>
      |r| == |status| && r[1..] == status[1..] && r[0] == (status[0] as int - 32) as char
    ensures status !in {Models.Announced, Models.Listed, Models.Cancelled} ==> r == status
  {
    match status
    case "announced" => "Announced"
    case "listed" => "Listed"
    case "cancelled" => "Cancelled"
    case _ => status
  }

  /** The caption in front of the listing date. */
  function DateCaption(status: string): (r: string)
    ensures r == "Listed on" <==> status == Models.Listed
    ensures r != "Listed on" ==> r == "Expected listing"
  {
    if status == Models.Listed then "Listed on" else "Expected listing"
  }

  const FetchFailed: string := "Failed to fetch IPOs"

  /** How the request to /api/v1/ipos ended. A thrown value that is not an Error has no message. */
  datatype FetchOutcome =
    | Rejected(message: Option<string>)
    | Answered(ok: bool, body: Body)

  /** The decoded body: a JSON array, JSON null, or text that is not JSON. */
  datatype Body = IPOs(items: seq<Models.IPOAnnouncement>) | Null | NotJson(message: string)

  /** The error message a failed fetch records, or None when the list is replaced. */
  function FetchError(outcome: FetchOutcome): (r: Option<string>)
    ensures outcome.Answered? && !outcome.ok ==> r == Some(FetchFailed)
    ensures outcome.Answered? && outcome.ok && !outcome.body.NotJson? ==> r.None?
    ensures outcome.Rejected? && outcome.message.Some? ==> r == outcome.message
    ensures outcome.Rejected? && outcome.message.None? ==> r == Some(FetchFailed)
    ensures outcome.Answered? && outcome.ok && outcome.body.NotJson? ==> r == Some(outcome.body.message)
  {
    match outcome
    case Rejected(m) => Some(if m.Some? then m.value else FetchFailed)
    case Answered(ok, body) =>
      if !ok then Some(FetchFailed)
      else if body.NotJson? then Some(body.message)
      else None
  }

  class View {
    var ipos: seq<Models.IPOAnnouncement>
    var loading: bool
    var error: Option<string>

    /** Mounting starts with an empty list, loading, and no error. */
    constructor()
      ensures ipos == [] && loading && error.None?
    {
      ipos := [];
      loading := true;
      error := None;
    }

    /**
     * fetchIPOs: a successful answer replaces the list (JSON null counts as
     * empty) and leaves the error as it was; a failure records its message and
     * keeps the list; loading ends either way.
     */
    method FetchIPOs(outcome: FetchOutcome)
      modifies this
      ensures !loading
      ensures FetchError(outcome).Some? ==> error == FetchError(outcome) && ipos == old(ipos)
      ensures FetchError(outcome).None? ==> error == old(error)
      ensures FetchError(outcome).None? ==> ipos == (if outcome.body.IPOs? then outcome.body.items else [])
    {
      match outcome {
        case Rejected(m) =>
          error := Some(if m.Some? then m.value else FetchFailed);
        case Answered(ok, body) =>
          if !ok {
            error := Some(FetchFailed);
          } else if body.NotJson? {
            error := Some(body.message);
          } else {
            ipos := if body.IPOs? then body.items else [];
          }
      }
      loading := false;
    }
  }
}
