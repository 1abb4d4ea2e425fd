/**
 * The pieces of browser state the scripts change: localStorage, the
 * window's location and alerts, and a variable that holds a Chart.js
 * instance. Navigation is recorded, not performed: assigning
 * `window.location.href` appends the target, and the page ends up at the
 * last one appended.
 */
module Browser {
  import opened Wrappers
  import opened JsValue

  /** window.localStorage: string keys to string values. */
  class LocalStorage {
    var items: map<string, string>

    constructor(items: map<string, string>)
      ensures this.items == items
    {
      this.items := items;
    }

    /** getItem: the stored string, or null (None). */
    function Item(key: string): (r: Option<string>)
      reads this
      ensures r.Some? <==> key in items
      ensures r.Some? ==> r.value == items[key]
    {
      if key in items then Some(items[key]) else None
    }

    method SetItem(key: string, value: string)
      modifies this
      ensures items == old(items)[key := value]
      ensures Item(key) == Some(value)
    {
      items := items[key := value];
    }

    method RemoveItem(key: string)
      modifies this
      ensures items == old(items) - {key}
      ensures Item(key) == None
    {
      items := items - {key};
    }
  }

  /** The window: the current path, the origin, and what the script did to it. */
  class Window {
    const origin: string
    var pathname: string
    var navigations: seq<string>
    var alerts: seq<string>

    constructor(origin: string, pathname: string)
      ensures this.origin == origin && this.pathname == pathname
      ensures navigations == [] && alerts == []
    {
      this.origin := origin;
      this.pathname := pathname;
      navigations := [];
      alerts := [];
    }

    /** `window.location.href = url` */
    method Navigate(url: string)
      modifies this
      ensures navigations == old(navigations) + [url]
      ensures alerts == old(alerts) && pathname == old(pathname)
    {
      navigations := navigations + [url];
    }

    /** `alert(text)` */
    method Alert(text: string)
      modifies this
      ensures alerts == old(alerts) + [text]
      ensures navigations == old(navigations) && pathname == old(pathname)
    {
      alerts := alerts + [text];
    }
  }

  /** A call of the pages' displayMessage: the value shown and whether it is shown as an error. */
  datatype Notice = Notice(text: Json, isError: bool)

  /** What a chart's container shows: its canvas, or a text written in its place. */
  datatype Panel = Canvas | Placeholder(text: string)

  /** What a Chart.js chart was created with. */
  datatype Chart = Chart(kind: string, labels: seq<Json>, values: seq<Json>, colors: seq<string>)

  /**
   * A script-level variable holding a chart instance. `current` is the
   * variable (destroy() does not clear it); `live` is the charts created
   * through it and not yet destroyed.
   */
  class ChartSlot {
    var current: Option<Chart>
    var live: seq<Chart>

    /** At most one chart is alive, and it is the one the variable holds. */
    predicate Valid()
      reads this
    {
      |live| <= 1 && (|live| == 1 ==> current == Some(live[0]))
    }

    constructor()
      ensures Valid() && current == None && live == []
    {
      current := None;
      live := [];
    }

    /** `if (instance) instance.destroy();` */
    method DestroyIfAny()
      requires Valid()
      modifies this
      ensures Valid()
      ensures current == old(current) && live == []
    {
      if current.Some? {
        live := [];
      }
    }

    /** `if (instance) instance.destroy(); instance = new Chart(...)` */
    method Replace(chart: Chart)
      requires Valid()
      modifies this
      ensures Valid()
      ensures current == Some(chart) && live == [chart]
    {
      DestroyIfAny();
      current := Some(chart);
      live := live + [chart];
    }
  }
}
