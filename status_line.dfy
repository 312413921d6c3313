/**
 * The status line of the open control (src/components/TimeMachine.js:81-95):
 * `hover && hover !== override ? <preview of hover> : override ? <viewing
 * override> : <latest>`, with JavaScript truthiness: `null` and `""` are
 * false. The Thai captions are left to the renderer; each line carries the id
 * whose time it shows.
 */
module StatusLine {
  import opened Wrappers
  import opened Digits
  import opened Catalog
  import opened ReadableTime

  datatype Status =
    | Latest              // "viewing the latest data"
    | Previewing(id: string)  // "history at time T": the hovered segment
    | Viewing(id: string)     // "historical data at time T": the override

  /** JavaScript truthiness of a string-or-null value. */
  predicate Truthy(o: Option<string>) {
    o.Some? && o.value != ""
  }

  /** The line chosen by the nested conditional of the control: preview, viewing, or latest. */
  function StatusOf(hover: Option<string>, override: Option<string>): Status {
    if Truthy(hover) && hover != override then Previewing(hover.value)
    else if Truthy(override) then Viewing(override.value)
    else Latest
  }

  /** The time shown on the line, through `dirNameToReadableTime`; none for `Latest`. */
  function ShownTime(st: Status): Option<string> {
    match st
    case Latest => None
    case Previewing(id) => Some(DirNameToReadableTime(id))
    case Viewing(id) => Some(DirNameToReadableTime(id))
  }

  /**
   * Which line is shown: the hover preview exactly when a hover is set and
   * differs from the override; otherwise the override when one is set;
   * "latest" exactly when neither is set. The preview shows the hover's time
   * and the viewing line the override's.
   */
  lemma StatusChoice(hover: Option<string>, override: Option<string>)
    ensures StatusOf(hover, override).Previewing?
        <==> Truthy(hover) && hover != override
    ensures StatusOf(hover, override).Viewing?
        <==> !(Truthy(hover) && hover != override) && Truthy(override)
    ensures StatusOf(hover, override).Latest?
        <==> !Truthy(hover) && !Truthy(override)
    ensures StatusOf(hover, override).Previewing? ==> StatusOf(hover, override).id == hover.value
    ensures StatusOf(hover, override).Viewing? ==> StatusOf(hover, override).id == override.value
  {
  }

  /** Hovering the selected segment shows the selection, not a preview. */
  lemma HoverOnSelection(id: string)
    requires id != ""
    ensures StatusOf(Some(id), Some(id)) == Viewing(id)
  {
  }

  /**
   * The control holding the status line is rendered only while the override
   * is truthy (`{!!override && renderControl()}`), and then the line is never
   * "latest".
   */
  lemma RenderedNeverLatest(hover: Option<string>, override: Option<string>)
    requires Truthy(override)
    ensures StatusOf(hover, override) != Latest
  {
  }

  /**
   * With a catalog id selected and no differing hover, the line shows that
   * id's readable time: 16 characters `DDDD-DD-DD DD:DD`.
   */
  lemma CatalogTimeShown(hover: Option<string>, i: nat)
    requires i < |Dirs|
    requires !Truthy(hover) || hover == Some(Dirs[i].id)
    ensures ShownTime(StatusOf(hover, Some(Dirs[i].id))) == Some(DirNameToReadableTime(Dirs[i].id))
    ensures var t := DirNameToReadableTime(Dirs[i].id);
      && |t| == 16
      && t[4] == '-' && t[7] == '-' && t[10] == ' ' && t[13] == ':'
      && forall k :: 0 <= k < 16 && k !in {4, 7, 10, 13} ==> IsDigit(t[k])
  {
    DirsWellFormed();
    IdReadableShape(Dirs[i].id);
  }

  /** The first catalog entry, the oldest snapshot, is shown as `2019-03-24 18:19`. */
  lemma FirstEntryShown()
    ensures DirNameToReadableTime(Dirs[0].id) == "2019-03-24 18:19"
  {
    FirstId();
    FirstIdExample();
  }
}
