/**
 * The event records the SDK emits and the collector accepts: a closed tagged union
 * with one constructor per event kind, sharing a common base.
 */
module Events {
  import opened Wrappers
  import opened Json

  datatype Viewport = Viewport(w: real, h: real, dpr: Option<real>)

  datatype Device = Device(ua: Option<string>, platform: Option<string>, language: Option<string>)

  datatype MovePoint = MovePoint(x: real, y: real, tsOffset: real)

  datatype InputAction = Focus | Blur | Change

  datatype KeyCategory = Navigation | Editing | Modifier | System | OtherKey

  /** The type-specific part of an event, keyed by its `type` tag. */
  datatype Body =
    | Click(x: real, y: real, selector: Option<string>, button: Option<real>)
    | Move(points: seq<MovePoint>)
    | Scroll(scrollY: real, scrollDepthPct: real)
    | Pageview(from: Option<string>, to: string)
    | Custom(name: string, props: Option<map<string, Json>>)
    | Input(action: InputAction, selector: Option<string>, inputType: Option<string>,
            length: Option<real>, masked: Option<string>)
    | Keyboard(category: KeyCategory)

  datatype Event = Event(
    eventId: string,
    sessionId: string,
    ts: real,
    path: string,
    viewport: Viewport,
    device: Device,
    meta: Option<map<string, Json>>,
    body: Body)

  /** The `type` tag of each variant. */
  function TypeName(b: Body): string {
    match b
    case Click(_, _, _, _) => "click"
    case Move(_) => "move"
    case Scroll(_, _) => "scroll"
    case Pageview(_, _) => "pageview"
    case Custom(_, _) => "custom"
    case Input(_, _, _, _, _) => "input"
    case Keyboard(_) => "keyboard"
  }

  function ActionName(a: InputAction): string {
    match a
    case Focus => "focus"
    case Blur => "blur"
    case Change => "change"
  }

  function CategoryName(c: KeyCategory): string {
    match c
    case Navigation => "navigation"
    case Editing => "editing"
    case Modifier => "modifier"
    case System => "system"
    case OtherKey => "other"
  }

  /** The optional selector a row inherits (`event.selector ?? null`). */
  function BodySelector(b: Body): Option<string> {
    match b
    case Click(_, _, s, _) => s
    case Input(_, s, _, _, _) => s
    case _ => None
  }
}
