/**
 * The display settings of the supplier dashboard
 * (frontend/src/pages/supplier/Dashboard.tsx): six switches read once from
 * `supplier_dashboard_settings` when the page opens, falling back to the
 * defaults, and written back whenever they change. The partner handlers of
 * the same page are in `Partners`.
 */
module SupplierDashboard {
  import opened Common

  datatype Settings = Settings(
    showQuickActions: bool, showStats: bool, showNotificationsBanner: bool,
    showLowStock: bool, showRecentOrders: bool, showTopProducts: bool)

  /** Every section is on. */
  const DefaultSettings := Settings(true, true, true, true, true, true)

  /** What `localStorage.getItem('supplier_dashboard_settings')` returns:
    * nothing, the empty string, text `JSON.parse` throws on, or saved
    * settings. */
  datatype Stored = Missing | EmptyText | Unparsable | Saved(settings: Settings)

  /** The state initialiser: a falsy or unparsable value gives the
    * defaults. */
  function LoadSettings(raw: Stored): (r: Settings)
    ensures raw.Saved? ==> r == raw.settings
    ensures !raw.Saved? ==> r == DefaultSettings
  {
    match raw
    case Saved(s) => s
    case _ => DefaultSettings
  }

  /** What the persisting effect writes. */
  function Persist(s: Settings): Stored {
    Saved(s)
  }

  /** Settings written by the page are read back unchanged the next time it
    * opens, and a page opened with nothing usable saved writes the
    * defaults. */
  lemma PersistRoundTrip(s: Settings, raw: Stored)
    ensures LoadSettings(Persist(s)) == s
    ensures !raw.Saved? ==> Persist(LoadSettings(raw)) == Saved(DefaultSettings)
    ensures Persist(LoadSettings(Persist(s))) == Persist(s)
  {
  }

  /** The sections of the page a switch controls, in page order. */
  datatype Section = Stats | NotificationsBanner | QuickActions | LowStock | RecentOrders | TopProducts

  function SwitchOf(s: Settings, sec: Section): bool {
    match sec
    case Stats => s.showStats
    case NotificationsBanner => s.showNotificationsBanner
    case QuickActions => s.showQuickActions
    case LowStock => s.showLowStock
    case RecentOrders => s.showRecentOrders
    case TopProducts => s.showTopProducts
  }

  /** The sections of the page, top to bottom. */
  const PageOrder: seq<Section> := [Stats, NotificationsBanner, QuickActions, LowStock, RecentOrders, TopProducts]

  function SwitchedOn(s: Settings): Section -> bool {
    (sec: Section) => SwitchOf(s, sec)
  }

  /** The sections drawn, in page order. */
  function Visible(s: Settings): seq<Section> {
    Filter(PageOrder, SwitchedOn(s))
  }

  /** A section is drawn exactly when its switch is on. */
  lemma VisibleSpec(s: Settings, sec: Section)
    ensures sec in Visible(s) <==> SwitchOf(s, sec)
  {
    FilterMembership(PageOrder, SwitchedOn(s), sec);
    OnThePage(sec);
  }

  lemma OnThePage(sec: Section)
    ensures sec in PageOrder
  {
    var k := match sec
      case Stats => 0
      case NotificationsBanner => 1
      case QuickActions => 2
      case LowStock => 3
      case RecentOrders => 4
      case TopProducts => 5;
    assert PageOrder[k] == sec;
  }

  /** A page with nothing usable saved draws all six sections, in page
    * order. */
  lemma DefaultShowsAll(raw: Stored)
    requires !raw.Saved?
    ensures Visible(LoadSettings(raw)) == PageOrder
  {
    FilterKeepsAll(PageOrder, SwitchedOn(DefaultSettings));
  }

  /** The page's settings and the value saved for them. */
  class SettingsPanel {
    var settings: Settings
    var stored: Stored

    /** Opening the page reads the saved value; the effect then writes the
      * settings back. */
    constructor (raw: Stored)
      ensures settings == LoadSettings(raw)
      ensures stored == Persist(settings)
    {
      settings := LoadSettings(raw);
      stored := Persist(LoadSettings(raw));
    }
  }
}
