/**
 * The page's mutable state: the streams container, the registry of rendered rows
 * used for filtering, and which filter buttons are marked active.
 */
module Registry {
  import opened Wrappers
  import opened Records
  import opened RowView

  /** One registry entry: the row node, its user, its two flags and whether the node is displayed. */
  datatype Entry = Entry(node: Row, user: string, online: bool, closed: bool, visible: bool)

  /** The three filter buttons. */
  datatype Button = ShowAll | ShowOnline | ShowOffline

  /** The mode each button selects. */
  function ButtonMode(b: Button): string {
    match b
    case ShowAll => "all"
    case ShowOnline => "online"
    case ShowOffline => "offline"
  }

  /** The badge the two registry flags stand for. */
  function FlagBadge(online: bool, closed: bool): Badge {
    if online then Online else if closed then Closed else Offline
  }

  /** The entry `renderRow` registers; its flags always agree with the badge on its node. */
  function EntryFor(user: string, ch: Option<Channel>, st: Option<StreamInfo>): (e: Entry)
    ensures e.node == BuildRow(user, ch, st) && e.user == user && e.visible
    ensures e.node.badge == FlagBadge(e.online, e.closed)
    ensures e.online <==> IsLive(st)
    ensures e.closed <==> IsClosed(ch)
  {
    Entry(BuildRow(user, ch, st), user, IsLive(st), IsClosed(ch), true)
  }

  /** Whether an entry is displayed after filtering by `mode`. */
  function Shown(mode: string, e: Entry): (v: bool)
    ensures mode == "all" ==> v
    ensures mode == "online" ==> (v <==> FlagBadge(e.online, e.closed) == Online)
    ensures mode == "offline" ==> (v <==> FlagBadge(e.online, e.closed) == Offline)
    ensures mode != "all" && mode != "online" && mode != "offline" ==> v == e.visible
  {
    if mode == "all" then true
    else if mode == "online" then e.online
    else if mode == "offline" then !e.online && !e.closed
    else e.visible
  }

  /** The registry after filtering by `mode`: only the visibility of each entry changes. */
  function Filtered(mode: string, s: seq<Entry>): (r: seq<Entry>)
    ensures |r| == |s|
    ensures forall i :: 0 <= i < |s| ==> r[i] == s[i].(visible := Shown(mode, s[i]))
  {
    if s == [] then [] else [s[0].(visible := Shown(mode, s[0]))] + Filtered(mode, s[1..])
  }

  /** The buttons marked active after filtering by `mode`. */
  function ActiveFor(mode: string): (a: set<Button>)
    ensures forall b :: b in a <==> ButtonMode(b) == mode
    ensures a == {} <==> mode != "all" && mode != "online" && mode != "offline"
  {
    if mode == "all" then {ShowAll}
    else if mode == "online" then {ShowOnline}
    else if mode == "offline" then {ShowOffline}
    else {}
  }

  /** For each of the three modes exactly one button is active; the buttons select distinct modes. */
  lemma OneActiveButton(mode: string)
    requires mode == "all" || mode == "online" || mode == "offline"
    ensures |ActiveFor(mode)| == 1
    ensures forall b, b' :: ButtonMode(b) == ButtonMode(b') ==> b == b'
  {
  }

  /** `results[i] || {}`: a missing result reads as two null records. */
  function ResultAt(results: seq<Fetched>, i: nat): Fetched {
    if i < |results| then results[i] else Fetched(None, None)
  }

  /** The registry `loadAll` builds: users rendered in list order, each with the result at its own position. */
  function Rendered(users: seq<string>, results: seq<Fetched>): (r: seq<Entry>)
    ensures |r| == |users|
    ensures forall i :: 0 <= i < |users| ==>
      r[i] == EntryFor(users[i], ResultAt(results, i).channel, ResultAt(results, i).stream)
  {
    if users == [] then []
    else
      var n := |users| - 1;
      Rendered(users[..n], results) + [EntryFor(users[n], ResultAt(results, n).channel, ResultAt(results, n).stream)]
  }

  /** Filtering twice by the same mode is filtering once. */
  lemma FilterIdempotent(mode: string, s: seq<Entry>)
    ensures Filtered(mode, Filtered(mode, s)) == Filtered(mode, s)
  {
  }

  /** A mode other than the three leaves every entry as it was. */
  lemma FilterUnknownMode(mode: string, s: seq<Entry>)
    requires mode != "all" && mode != "online" && mode != "offline"
    ensures Filtered(mode, s) == s
  {
  }

  /**
   * The filters partition the entries: none is shown under both "online" and
   * "offline", and exactly the closed ones (not live) are shown under neither.
   */
  lemma FilterPartition(e: Entry)
    ensures !(Shown("online", e) && Shown("offline", e))
    ensures !Shown("online", e) && !Shown("offline", e) <==> FlagBadge(e.online, e.closed) == Closed
  {
  }

  /** A rendered row is shown under "online" exactly when its badge is ONLINE, under "offline" exactly when it is OFFLINE. */
  lemma FilterMatchesBadge(user: string, ch: Option<Channel>, st: Option<StreamInfo>)
    ensures Shown("online", EntryFor(user, ch, st)) <==> BuildRow(user, ch, st).badge == Online
    ensures Shown("offline", EntryFor(user, ch, st)) <==> BuildRow(user, ch, st).badge == Offline
    ensures Shown("all", EntryFor(user, ch, st))
  {
  }

  /** Both flags can hold at once: a live user whose channel also reports an error. */
  lemma BothFlags()
    ensures var e := EntryFor("u", Some(Channel(None, None, None, None, Some("Not Found"))),
                              Some(StreamInfo(Some(Live(None, None, None)))));
      e.online && e.closed && e.node.badge == Online
  {
  }

  class Page {
    /** The rows in the streams container, in display order. */
    var container: seq<Row>
    /** The registry of rendered rows, in render order. */
    var entries: seq<Entry>
    /** The filter buttons carrying the "active" class. */
    var active: set<Button>

    /** The container shows exactly the registry's nodes, in the same order. */
    ghost predicate Valid()
      reads this
    {
      |container| == |entries| &&
      forall i :: 0 <= i < |entries| ==> container[i] == entries[i].node
    }

    constructor (initiallyActive: set<Button>)
      ensures Valid()
      ensures container == [] && entries == [] && active == initiallyActive
    {
      container := [];
      entries := [];
      active := initiallyActive;
    }

    /** Renders one user: appends its row to the container and its entry to the registry. */
    method RenderRow(user: string, ch: Option<Channel>, st: Option<StreamInfo>)
      requires Valid()
      modifies this
      ensures Valid()
      ensures container == old(container) + [BuildRow(user, ch, st)]
      ensures entries == old(entries) + [EntryFor(user, ch, st)]
      ensures active == old(active)
    {
      var row := BuildRow(user, ch, st);
      container := container + [row];
      entries := entries + [Entry(row, user, IsLive(st), IsClosed(ch), true)];
    }

    /**
     * Empties the container and the registry, then renders every user in list
     * order with the fetch result at the same position.
     */
    method LoadAll(users: seq<string>, results: seq<Fetched>)
      modifies this
      ensures Valid()
      ensures entries == Rendered(users, results)
      ensures active == old(active)
    {
      container := [];
      entries := [];
      var i := 0;
      while i < |users|
        invariant 0 <= i <= |users|
        invariant Valid()
        invariant entries == Rendered(users[..i], results)
        invariant active == old(active)
      {
        var r := ResultAt(results, i);
        RenderRow(users[i], r.channel, r.stream);
        assert users[..i + 1][..i] == users[..i];
        i := i + 1;
      }
      assert users[..i] == users;
    }

    /** Sets each entry's visibility for `mode`, then marks the matching button active. */
    method SetFilter(mode: string)
      requires Valid()
      modifies this
      ensures Valid()
      ensures entries == Filtered(mode, old(entries))
      ensures container == old(container)
      ensures active == ActiveFor(mode)
    {
      var i := 0;
      while i < |entries|
        invariant 0 <= i <= |entries| == |old(entries)|
        invariant container == old(container)
        invariant forall k :: 0 <= k < i ==> entries[k] == old(entries)[k].(visible := Shown(mode, old(entries)[k]))
        invariant forall k :: i <= k < |entries| ==> entries[k] == old(entries)[k]
        invariant Valid()
      {
        var e := entries[i];
        if mode == "all" {
          entries := entries[i := e.(visible := true)];
        } else if mode == "online" {
          entries := entries[i := e.(visible := e.online)];
        } else if mode == "offline" {
          entries := entries[i := e.(visible := !e.online && !e.closed)];
        }
        i := i + 1;
      }
      assert entries == Filtered(mode, old(entries));
      active := {};
      if mode == "all" {
        active := active + {ShowAll};
      }
      if mode == "online" {
        active := active + {ShowOnline};
      }
      if mode == "offline" {
        active := active + {ShowOffline};
      }
    }
  }
}
