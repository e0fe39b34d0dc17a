/** Values shared by the session model: JavaScript's `undefined`, track
    metadata as the resolvers return it, and the events the player emits. */
module MusicTypes {

  /** `None` stands for JavaScript's `undefined` wherever the player can
      produce it (reading past the end of an array, a failed lookup). */
  datatype Option<+T> = None | Some(value: T) {
    function GetOr(default: T): T {
      match this
      case Some(v) => v
      case None => default
    }
  }

  /** A URL as the player holds it: a string, or `undefined` when a search
      found nothing or an empty history was read. Equality of two `Url`
      values is the source's `===` on `string | undefined`. */
  type Url = Option<string>

  /** An element of the queue. `previous()` can put `undefined` into it. */
  type QueueEntry = Option<TrackMetadata>

  /** The `source` tag of a track. */
  datatype Source = YouTube | SoundCloud | Spotify | Deezer | Unknown

  /** What a metadata provider answers when it succeeds. */
  datatype Details = Details(
    title: Option<string>,
    author: Option<string>,
    duration: Option<int>,      // seconds
    thumbnail: Option<string>)

  datatype TrackMetadata = TrackMetadata(
    title: Option<string>,
    author: Option<string>,
    duration: Option<int>,      // seconds
    thumbnail: Option<string>,
    source: Source,
    url: Url)

  /** The events of `MusicPlayerEvent`, with the payloads the player
      actually passes to `emit`. Shuffle, LoopQueue and LoopTrack are
      declared by the event enumeration but never emitted. */
  datatype Event =
    | Start(url: string, history: seq<Url>, metadata: TrackMetadata)
    | QueueAdd(added: Url, queue: seq<QueueEntry>)
    | Pause
    | Resume
    | Stop
    | Skip(history: seq<Url>)
    | Previous(history: seq<Url>)
    | Shuffle(queue: seq<QueueEntry>)
    | LoopQueue(enabled: bool)
    | LoopTrack(enabled: bool)
    | VolumeChange(volume: int)
    | Finish(history: seq<Url>)
    | Disconnect
    | Error(message: string)

  /** `Math.round`: the nearest integer, halves rounded up. */
  function Round(x: real): (r: int)
    ensures x - 0.5 < r as real <= x + 0.5
  {
    (x + 0.5).Floor
  }

  /** The last element of a JavaScript array: `a[a.length - 1]`. */
  function Last<T>(a: seq<Option<T>>): (r: Option<T>)
    ensures |a| == 0 ==> r == None
    ensures |a| > 0 ==> r == a[|a| - 1]
  {
    if |a| == 0 then None else a[|a| - 1]
  }

  /** The array left by `a.pop()`; popping an empty array leaves it empty. */
  function Pop<T>(a: seq<T>): (r: seq<T>)
    ensures |a| == 0 ==> r == []
    ensures |a| > 0 ==> |r| == |a| - 1 && a == r + [a[|a| - 1]]
  {
    if |a| == 0 then a else a[..|a| - 1]
  }
}
