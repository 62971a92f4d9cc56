/**
 * The status badge of an asset: the mapping from a status to the badge's
 * visual variant, and the guarded status change it offers when it is
 * given both an asset id and an update callback.
 */
module StatusBadge {

  import Common
  import opened AssetSchema

  /** The badge's visual variants. */
  datatype Variant = Default | Success | Warning | Destructive

  /**
   * `getVariant`: "active" is a success, "maintenance" a warning, "lost"
   * destructive; "retired" and any other text fall to the default.
   */
  function GetVariant(s: string): (v: Variant)
    ensures v == Success <==> s == "active"
    ensures v == Warning <==> s == "maintenance"
    ensures v == Destructive <==> s == "lost"
    ensures v == Default <==> s != "active" && s != "maintenance" && s != "lost"
  {
    if s == "active" then Success
    else if s == "maintenance" then Warning
    else if s == "lost" then Destructive
    else Default
  }

  /** The variant of a record's status. */
  function StatusVariant(s: Status): Variant {
    GetVariant(StatusName(s))
  }

  /**
   * The mapping is total over the four statuses, and apart from "retired",
   * which shares the default with every unknown text, distinct statuses get
   * distinct variants.
   */
  lemma StatusVariants(a: Status, b: Status)
    ensures StatusVariant(Active) == Success && StatusVariant(Maintenance) == Warning
    ensures StatusVariant(Lost) == Destructive && StatusVariant(Retired) == Default
    ensures a != Retired && b != Retired && StatusVariant(a) == StatusVariant(b) ==> a == b
  {
    match a
    case Active => case Maintenance => case Retired => case Lost =>
  }

  /** A status update the badge asks its callback for: the record's id and the selected status. */
  datatype StatusUpdate = StatusUpdate(assetId: string, status: Status)

  /**
   * `handleChange`: the callback is called only when it is present and the
   * asset id is present and non-empty, with that id and the status selected
   * (one of the select's four options).
   */
  function HandleChange(hasOnUpdate: bool, assetId: Common.Option<string>, selected: Status): (r: Common.Option<StatusUpdate>)
    ensures r.Some? <==> hasOnUpdate && assetId.Some? && assetId.value != ""
    ensures r.Some? ==> r.value == StatusUpdate(assetId.value, selected)
  {
    if hasOnUpdate && assetId.Some? && assetId.value != "" then Common.Some(StatusUpdate(assetId.value, selected)) else Common.None
  }

  /** What the badge renders: a plain badge, or a badge with a status select over it. */
  datatype BadgeView =
    | ReadOnly(variant: Variant, caption: string)
    | Editable(variant: Variant, caption: string, current: Status)

  function Render(hasOnUpdate: bool, assetId: Common.Option<string>, status: Status): (v: BadgeView)
    ensures v.variant == StatusVariant(status) && v.caption == StatusName(status)
  {
    if !hasOnUpdate || assetId.None? || assetId.value == "" then ReadOnly(StatusVariant(status), StatusName(status))
    else Editable(StatusVariant(status), StatusName(status), status)
  }

  /** The badge is read-only exactly when no selection can issue an update. */
  lemma ReadOnlyIffNoUpdate(hasOnUpdate: bool, assetId: Common.Option<string>, status: Status)
    ensures Render(hasOnUpdate, assetId, status).ReadOnly? <==> forall s: Status :: HandleChange(hasOnUpdate, assetId, s).None?
  {
    if !Render(hasOnUpdate, assetId, status).ReadOnly? {
      assert HandleChange(hasOnUpdate, assetId, status).Some?;
    }
  }

  /** The component test's badges: active is green (success), maintenance amber (warning), retired slate (default). */
  lemma BadgeTestInputs()
    ensures Render(false, Common.None, Active) == ReadOnly(Success, "active")
    ensures Render(false, Common.None, Maintenance) == ReadOnly(Warning, "maintenance")
    ensures Render(false, Common.None, Retired) == ReadOnly(Default, "retired")
  {
  }
}
