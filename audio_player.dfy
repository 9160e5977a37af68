/**
 * The audio player provider: a first-in first-out queue of spoken clips, played one at a
 * time. The queue is a JavaScript array object held in state, so the model keeps its
 * identity apart from its contents: `splice` changes an array in place, `slice` and
 * spreading make new ones.
 */
module AudioPlayer {
  import opened Wrappers

  /** A queued clip: the promise of an audio URL, told apart by identity. */
  datatype Clip = Clip(handle: nat)

  /** `list.slice(start)` for a non-negative start. */
  function SliceFrom<T>(list: seq<T>, start: nat): (rest: seq<T>)
    ensures |rest| == if start < |list| then |list| - start else 0
    ensures forall i :: 0 <= i < |rest| ==> rest[i] == list[start + i]
  {
    if start < |list| then list[start..] else []
  }

  /** A JavaScript array of clips. */
  class ClipArray {
    var items: seq<Clip>

    constructor (initial: seq<Clip>)
      ensures items == initial
    {
      items := initial;
    }

    /** `array.splice(0)`: every element is removed in place and returned in a new array. */
    method SpliceAll() returns (removed: ClipArray)
      modifies this
      ensures fresh(removed) && removed.items == old(items)
      ensures items == []
    {
      removed := new ClipArray(items);
      items := [];
    }
  }

  /**
   * JavaScript truthiness of the current URL: `null`, `undefined` (both `None`) and the
   * empty string are falsy, every other string is truthy.
   */
  function Truthy(url: Option<string>): (truthy: bool)
    ensures url.None? ==> !truthy
    ensures url == Some("") ==> !truthy
    ensures url.Some? && |url.value| > 0 ==> truthy
  {
    match url
    case None => false
    case Some(text) => text != ""
  }

  /**
   * The provider's state: the `queue` array, the `isPlaying` flag, the URL of the clip
   * being played, and the object URLs released so far (`URL.revokeObjectURL`), in order.
   */
  class Player {
    var queue: ClipArray
    var isPlaying: bool
    var currentAudioUrl: Option<string>
    var revoked: seq<string>

    constructor ()
      ensures fresh(queue) && queue.items == []
      ensures !isPlaying && currentAudioUrl == None && revoked == []
    {
      queue := new ClipArray([]);
      isPlaying := false;
      currentAudioUrl := None;
      revoked := [];
    }

    /** `addToAudioQueue`: a new array with the clip after every clip already queued. */
    method AddToAudioQueue(clip: Clip)
      modifies this`queue
      ensures fresh(queue) && queue.items == old(queue.items) + [clip]
    {
      queue := new ClipArray(queue.items + [clip]);
    }

    /**
     * The effect on `[queue, isPlaying]`: when idle with a non-empty queue it starts
     * playing the head, and `playAudio` sets the flag before awaiting the clip's URL.
     */
    method RunEffect() returns (started: Option<Clip>)
      modifies this`isPlaying
      ensures started == if !old(isPlaying) && |queue.items| > 0 then Some(queue.items[0]) else None
      ensures isPlaying == (old(isPlaying) || started.Some?)
    {
      started := None;
      if !isPlaying && |queue.items| > 0 {
        started := Some(queue.items[0]);
        isPlaying := true;
      }
    }

    /** The rest of `playAudio` once the clip's URL is known: playback starts on it. */
    method AudioStarted(url: string)
      modifies this`currentAudioUrl
      ensures currentAudioUrl == Some(url)
    {
      currentAudioUrl := Some(url);
    }

    /**
     * `onended` of the clip played from `url`: the URL is released, the head of the queue
     * removed, and the player is idle again.
     */
    method OnEnded(url: string)
      modifies this`queue, this`isPlaying, this`currentAudioUrl, this`revoked
      ensures currentAudioUrl == None && !isPlaying && revoked == old(revoked) + [url]
      ensures fresh(queue) && queue.items == SliceFrom(old(queue.items), 1)
    {
      currentAudioUrl := None;
      revoked := revoked + [url];
      queue := new ClipArray(SliceFrom(queue.items, 1));
      isPlaying := false;
    }

    /** The part of `clearAudioQueue` that releases the current URL, if it is truthy. */
    method ReleaseCurrent()
      modifies this`currentAudioUrl, this`revoked
      ensures Truthy(old(currentAudioUrl)) ==>
        currentAudioUrl == None && revoked == old(revoked) + [old(currentAudioUrl).value]
      ensures !Truthy(old(currentAudioUrl)) ==>
        currentAudioUrl == old(currentAudioUrl) && revoked == old(revoked)
    {
      if Truthy(currentAudioUrl) {
        revoked := revoked + [currentAudioUrl.value];
        currentAudioUrl := None;
      }
    }

    /**
     * `clearAudioQueue` as written: the state updater empties the old array in place with
     * `splice(0)` but returns what `splice` removed, so the array installed as the new
     * queue holds every clip that was queued.
     */
    method Clear()
      modifies this`queue, this`currentAudioUrl, this`revoked, queue
      ensures Truthy(old(currentAudioUrl)) ==>
        currentAudioUrl == None && revoked == old(revoked) + [old(currentAudioUrl).value]
      ensures !Truthy(old(currentAudioUrl)) ==>
        currentAudioUrl == old(currentAudioUrl) && revoked == old(revoked)
      ensures old(queue).items == []
      ensures fresh(queue) && queue.items == old(queue.items)
    {
      ReleaseCurrent();
      queue := queue.SpliceAll();
    }

    /** `clearAudioQueue` as intended: the new queue is empty. */
    method ClearQueue()
      modifies this`queue, this`currentAudioUrl, this`revoked
      ensures Truthy(old(currentAudioUrl)) ==>
        currentAudioUrl == None && revoked == old(revoked) + [old(currentAudioUrl).value]
      ensures !Truthy(old(currentAudioUrl)) ==>
        currentAudioUrl == old(currentAudioUrl) && revoked == old(revoked)
      ensures fresh(queue) && queue.items == []
    {
      ReleaseCurrent();
      queue := new ClipArray([]);
    }
  }

  /**
   * Clips queued one after another, each followed by the effect, and then played to
   * their end: `playAudio` is called on the clips in exactly the order they were queued.
   */
  method PlayInOrder(clips: seq<Clip>, urlOf: Clip -> string) returns (started: seq<Clip>)
    ensures started == clips
  {
    var player := new Player();
    started := [];
    var i := 0;
    while i < |clips|
      invariant 0 <= i <= |clips|
      invariant fresh(player.queue)
      invariant player.queue.items == clips[..i]
      invariant player.isPlaying == (i > 0)
      invariant started == clips[..if i > 0 then 1 else 0]
    {
      player.AddToAudioQueue(clips[i]);
      assert clips[..i + 1] == clips[..i] + [clips[i]];
      var next := player.RunEffect();
      if next.Some? {
        started := started + [next.value];
      }
      i := i + 1;
    }
    var ended := 0;
    while |player.queue.items| > 0
      invariant 0 <= ended <= |clips|
      invariant fresh(player.queue)
      invariant player.queue.items == clips[ended..]
      invariant player.isPlaying == (ended < |clips|)
      invariant started == clips[..if ended < |clips| then ended + 1 else ended]
      decreases |player.queue.items|
    {
      var head := player.queue.items[0];
      player.AudioStarted(urlOf(head));
      player.OnEnded(urlOf(head));
      ended := ended + 1;
      assert player.queue.items == clips[ended..];
      var next := player.RunEffect();
      if next.Some? {
        assert clips[..ended + 1] == clips[..ended] + [next.value];
        started := started + [next.value];
      }
    }
    assert clips[..|clips|] == clips;
  }

  /** Clearing after queueing `clips` with `clearAudioQueue` as written leaves them queued. */
  method ClearKeepsQueued(clips: seq<Clip>) returns (remaining: seq<Clip>)
    ensures remaining == clips
  {
    var player := new Player();
    var i := 0;
    while i < |clips|
      invariant 0 <= i <= |clips|
      invariant fresh(player.queue)
      invariant player.queue.items == clips[..i]
    {
      player.AddToAudioQueue(clips[i]);
      assert clips[..i + 1] == clips[..i] + [clips[i]];
      i := i + 1;
    }
    assert clips[..|clips|] == clips;
    player.Clear();
    remaining := player.queue.items;
  }

  /**
   * Clearing after queueing `clips` with the intended `clearAudioQueue`: the queue held
   * exactly `clips` before, and is empty after.
   */
  method ClearEmptiesQueue(clips: seq<Clip>) returns (queued: seq<Clip>, remaining: seq<Clip>)
    ensures queued == clips
    ensures remaining == []
  {
    var player := new Player();
    var i := 0;
    while i < |clips|
      invariant 0 <= i <= |clips|
      invariant fresh(player.queue)
      invariant player.queue.items == clips[..i]
    {
      player.AddToAudioQueue(clips[i]);
      assert clips[..i + 1] == clips[..i] + [clips[i]];
      i := i + 1;
    }
    assert clips[..|clips|] == clips;
    queued := player.queue.items;
    player.ClearQueue();
    remaining := player.queue.items;
  }
}
