/**
 * The audio engine the controller drives, reduced to abstract state: the
 * playlist's items and position, whether the player is attached, and which
 * file handles are open. Decoding, rendering and devices are not modelled;
 * each engine call is a function from the old engine state to the new one.
 */
module Groove {
  import opened Wrappers

  /** An opened audio file: a serial the engine gives it at open, and its path. */
  datatype Handle = Handle(serial: nat, path: string)

  /** A playlist entry: the engine's identity token and the file it plays. */
  datatype Item = Item(id: nat, file: Handle)

  datatype Engine = Engine(
    items: seq<Item>,       // playlist.items(), in playing order
    current: Option<Item>,  // playlist.position().item
    offset: real,           // playlist.position().pos
    attached: bool,         // the player is attached to the playlist
    rendering: bool,        // last of playlist.play() / playlist.pause()
    gain: real,             // last value given to playlist.setGain
    open: set<Handle>,      // handles opened and not yet closed
    broken: set<string>,    // paths the engine fails to open or decode
    nextId: nat,            // next identity token for an inserted item
    nextSerial: nat,        // next serial for an opened handle
    clears: nat             // how many times playlist.clear() was called
  )

  /** The engine's own bookkeeping: fresh tokens and serials, a valid position. */
  ghost predicate Valid(e: Engine)
  {
    && (forall k :: 0 <= k < |e.items| ==> e.items[k].id < e.nextId)
    && (forall k, m :: 0 <= k < m < |e.items| ==> e.items[k].id != e.items[m].id)
    && (e.current.Some? ==> e.current.value in e.items)
    && (forall h :: h in e.open ==> h.serial < e.nextSerial)
  }

  /** The engine before any call: an empty, unattached, playing playlist. */
  function Empty(broken: set<string>): Engine
  {
    Engine([], None, 0.0, false, true, 1.0, {}, broken, 0, 0, 0)
  }

  /** The set of handles in a sequence. */
  function Elements(hs: seq<Handle>): set<Handle>
  {
    set h | h in hs
  }

  /** `groove.open(path)`: a new handle, or a failure for a broken path. */
  function Open(e: Engine, path: string): (Engine, Option<Handle>)
  {
    if path in e.broken then (e, None)
    else
      var h := Handle(e.nextSerial, path);
      (e.(open := e.open + {h}, nextSerial := e.nextSerial + 1), Some(h))
  }

  /** `file.close(cb)`. */
  function Close(e: Engine, h: Handle): Engine
  {
    e.(open := e.open - {h})
  }

  /** `playlist.insert(file)`: appends an item with a fresh identity token. */
  function Insert(e: Engine, h: Handle): Engine
  {
    e.(items := e.items + [Item(e.nextId, h)], nextId := e.nextId + 1)
  }

  /** `playlist.clear()`: empties the playlist; nothing is being played. */
  function Clear(e: Engine): Engine
  {
    e.(items := [], current := None, offset := 0.0, clears := e.clears + 1)
  }

  /** `player.attach(playlist)`: playback starts at the first item. */
  function Attach(e: Engine): Engine
  {
    e.(attached := true, current := if e.items == [] then None else Some(e.items[0]), offset := 0.0)
  }

  /** `player.detach()`. */
  function Detach(e: Engine): Engine
  {
    e.(attached := false)
  }

  /** `playlist.play()`. */
  function Play(e: Engine): Engine
  {
    e.(rendering := true)
  }

  /** `playlist.pause()`. */
  function PausePlaylist(e: Engine): Engine
  {
    e.(rendering := false)
  }

  /** `playlist.seek(item, offset)`: moves the position, the items stay. */
  function Seek(e: Engine, item: Item, offset: real): Engine
  {
    e.(current := Some(item), offset := offset)
  }

  /** `playlist.setGain(g)`. */
  function SetPlaylistGain(e: Engine, g: real): Engine
  {
    e.(gain := g)
  }

  /** The identity tokens of a playlist, `items.map(item => item.id)`. */
  function Ids(items: seq<Item>): (ids: seq<nat>)
    ensures |ids| == |items|
    ensures forall k :: 0 <= k < |items| ==> ids[k] == items[k].id
  {
    seq(|items|, k requires 0 <= k < |items| => items[k].id)
  }

  /** JavaScript's `Array.prototype.indexOf`: the first position of `x`, or -1. */
  function IndexOf(xs: seq<nat>, x: nat): (r: int)
    ensures -1 <= r < |xs|
    ensures r == -1 <==> x !in xs
    ensures 0 <= r ==> xs[r] == x && forall k :: 0 <= k < r ==> xs[k] != x
  {
    if xs == [] then -1
    else if xs[0] == x then 0
    else
      var r := IndexOf(xs[1..], x);
      if r < 0 then -1 else r + 1
  }

  /** With distinct identity tokens, looking an item up by token finds its position. */
  lemma IndexOfItem(items: seq<Item>, k: nat)
    requires k < |items|
    requires forall i, j :: 0 <= i < j < |items| ==> items[i].id != items[j].id
    ensures IndexOf(Ids(items), items[k].id) == k
  {
    var r := IndexOf(Ids(items), items[k].id);
    assert Ids(items)[k] == items[k].id;
  }

  /**
   * The engine moving on by itself when an item finishes: to the item after
   * the current one, or to no item past the last.
   */
  function Advance(e: Engine): Engine
  {
    match e.current
    case None => e
    case Some(item) =>
      var k := IndexOf(Ids(e.items), item.id);
      if 0 <= k && k + 1 < |e.items| then e.(current := Some(e.items[k + 1]), offset := 0.0)
      else e.(current := None, offset := 0.0)
  }
}
