/** The coloured badge that shows a contact's confirmation status. */
module StatusBadge {
  import opened Wrappers
  import opened ContactTypes

  /**
   * The badge colour for a status text. The status comes from the server, so any text can reach
   * the switch; texts that name no status fall to the default.
   */
  function BadgeColor(status: string): (color: string)
    ensures FromLabel(status) == Some(Confirmed) ==> color == "success"
    ensures FromLabel(status) == Some(Pending) ==> color == "warning"
    ensures FromLabel(status) == Some(CalledTexted) ==> color == "tertiary"
    ensures FromLabel(status) == Some(Declined) ==> color == "danger"
  {
    if status == "Confirmed" then "success"
    else if status == "Pending" then "warning"
    else if status == "Called / Texted" then "tertiary"
    else if status == "Declined" then "danger"
    else if status == "Cancelled" then "medium"
    else "medium"
  }

  /** What the badge draws: its colour and its text. */
  datatype Badge = Badge(color: string, text: string)

  function RenderBadge(status: string): (b: Badge)
    ensures b.text == status
  {
    Badge(BadgeColor(status), status)
  }

  /** The grey "medium" badge means cancelled or unknown; every other colour names exactly one status. */
  lemma MediumMeansCancelledOrUnknown(status: string)
    ensures BadgeColor(status) == "medium" <==> FromLabel(status) == None || FromLabel(status) == Some(Cancelled)
  {
  }

  /** Two known statuses share a badge colour only when they are the same status. */
  lemma ColorsTellStatusesApart(s: ConfirmationStatus, t: ConfirmationStatus)
    ensures BadgeColor(Label(s)) == BadgeColor(Label(t)) <==> s == t
  {
  }

  /** Every badge colour is one of the theme's five. */
  lemma BadgeColorInTheme(status: string)
    ensures BadgeColor(status) in ["success", "warning", "tertiary", "danger", "medium"]
  {
  }
}
