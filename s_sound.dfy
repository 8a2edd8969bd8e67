/**
 * The Heretic/Hexen sound-channel allocator of prboom2/src/s_sound.c: a
 * fixed pool of channel records, per-sfx concurrency limits with priority
 * eviction, refreshing of looping sounds, the "one sound per emitter" rule,
 * the ambient-channel guard and the rotating eviction cursor.
 */
module SoundChannels {
  import opened Wrappers

  /** MAX_CHANNELS of s_sound.h: the size of the channel array. */
  const MaxChannels := 32

  /** INT_MAX, the starting score of the lowest-score scan. */
  const IntMax := 0x7fff_ffff

  /** channel_not_found. */
  const NotFound := -1

  /**
   * An entry of the sound table S_sfx as the allocator reads it. `id` is the
   * entry's index in the table: two sfxinfo pointers are equal exactly when
   * their ids are.
   */
  datatype Sfx = Sfx(id: nat, priority: int, numChannels: int)

  /** The emitter of a sound: NULL, or a map object (mobj) by identity. */
  datatype Origin = NoOrigin | Mobj(id: nat)

  /**
   * A channel record (channel_t), restricted to the fields the allocator
   * reads or writes. `sfx == None` is a NULL sfxinfo.
   */
  datatype Channel = Channel(
    sfx: Option<Sfx>,
    origin: Origin,
    priority: int,
    active: bool,
    loop: bool,
    loopTimeout: int)

  /** The zero-initialised record of a static channel_t. */
  const FreeChannel := Channel(None, NoOrigin, 0, false, false, 0)

  /** The request parameters (sfx_params_t) the allocator reads. */
  datatype SfxParams = SfxParams(priority: int, loop: bool, loopTimeout: int, ambient: bool)

  /** `channels[i].sfxinfo == sfx`: the channel plays that very table entry. */
  predicate SameSfx(c: Channel, sfx: Sfx) {
    c.sfx.Some? && c.sfx.value.id == sfx.id
  }

  /** S_ChannelScore: a channel's eviction score is its priority. */
  function ChannelScore(c: Channel): int {
    c.priority
  }

  /**
   * Comparing scores is comparing priorities, so the lowest-score scan
   * looks for a channel of least priority.
   */
  lemma ScoreOrdersByPriority(c: Channel, d: Channel)
    ensures ChannelScore(c) < ChannelScore(d) <==> c.priority < d.priority
  {
  }

  // ---------------------------------------------------------------------
  // First-match scans
  // ---------------------------------------------------------------------

  /** The three first-match scans of Raven_S_getChannel. */
  datatype Query =
    | Refresh(origin: Origin, sfx: Sfx, requestLoops: bool)  // same looping sound from the same emitter
    | SameOrigin(origin: Origin)                              // any channel of that emitter
    | Inactive                                                // a free channel

  predicate Hits(c: Channel, q: Query) {
    match q
    case Refresh(origin, sfx, requestLoops) =>
      c.active && SameSfx(c, sfx) && c.origin == origin && c.loop && requestLoops
    case SameOrigin(origin) => c.origin == origin
    case Inactive => !c.active
  }

  /** The index of the first channel the query hits, or -1. */
  function FirstIndex(s: seq<Channel>, q: Query): (k: int)
    ensures -1 <= k < |s|
    ensures k == -1 <==> forall j :: 0 <= j < |s| ==> !Hits(s[j], q)
    ensures k != -1 ==> Hits(s[k], q) && forall j :: 0 <= j < k ==> !Hits(s[j], q)
    decreases |s|
  {
    if |s| == 0 then -1
    else if Hits(s[0], q) then 0
    else
      var k := FirstIndex(s[1..], q);
      assert forall j :: 1 <= j < |s| ==> s[j] == s[1..][j - 1];
      if k == -1 then -1 else k + 1
  }

  // ---------------------------------------------------------------------
  // S_StopSoundInfo: per-sfx concurrency limit
  // ---------------------------------------------------------------------

  /** The channels S_StopSoundInfo counts: `sfx` playing from a non-NULL emitter. */
  predicate PlaysFrom(c: Channel, sfx: Sfx) {
    c.active && SameSfx(c, sfx) && c.origin != NoOrigin
  }

  /**
   * A counted channel a request of priority `request` may replace: its
   * priority is at most the request's, strictly below it if it loops.
   */
  predicate Qualifies(c: Channel, sfx: Sfx, request: int) {
    PlaysFrom(c, sfx) && c.priority <= request && (c.loop ==> c.priority < request)
  }

  /** How many channels play `sfx` from a real emitter. */
  function PlayingCount(s: seq<Channel>, sfx: Sfx): nat
    decreases |s|
  {
    if |s| == 0 then 0
    else PlayingCount(s[..|s| - 1], sfx) + (if PlaysFrom(s[|s| - 1], sfx) then 1 else 0)
  }

  /** The variables of S_StopSoundInfo's scan: least_priority, priority, found. */
  datatype StopScan = StopScan(least: int, priority: int, found: nat)

  /** The scan of S_StopSoundInfo over the channels `s`, one channel at a time. */
  function ScanStop(s: seq<Channel>, sfx: Sfx, request: int): StopScan
    decreases |s|
  {
    if |s| == 0 then StopScan(-1, request, 0)
    else
      var acc := ScanStop(s[..|s| - 1], sfx, request);
      var c := s[|s| - 1];
      if !PlaysFrom(c, sfx) then acc
      else if acc.priority >= c.priority && (!c.loop || acc.priority > c.priority) then
        StopScan(|s| - 1, c.priority, acc.found + 1)
      else
        acc.(found := acc.found + 1)
  }

  /**
   * What the scan finds: `found` counts the playing channels; the candidate
   * is a qualifying channel of least priority (-1 when none qualifies), and
   * no later non-looping channel of the sfx has that same priority.
   */
  lemma {:induction false} ScanStopMeaning(s: seq<Channel>, sfx: Sfx, request: int)
    ensures var r := ScanStop(s, sfx, request);
      && r.found == PlayingCount(s, sfx)
      && -1 <= r.least < |s|
      && (r.least == -1 <==> forall j :: 0 <= j < |s| ==> !Qualifies(s[j], sfx, request))
      && (r.least == -1 ==> r.priority == request)
      && (r.least != -1 ==>
            && Qualifies(s[r.least], sfx, request)
            && r.priority == s[r.least].priority
            && (forall j :: 0 <= j < |s| && Qualifies(s[j], sfx, request) ==>
                  s[r.least].priority <= s[j].priority)
            && (forall j :: r.least < j < |s| && PlaysFrom(s[j], sfx) && !s[j].loop ==>
                  s[r.least].priority < s[j].priority))
    decreases |s|
  {
    if |s| > 0 {
      var t := s[..|s| - 1];
      ScanStopMeaning(t, sfx, request);
      assert forall j :: 0 <= j < |t| ==> s[j] == t[j];
    }
  }

  /** The channel S_StopSoundInfo stops, or -1 when it stops none. */
  function StopVictim(s: seq<Channel>, sfx: Sfx, request: int): int {
    if sfx.numChannels == -1 then -1
    else
      var r := ScanStop(s, sfx, request);
      if r.found < sfx.numChannels then -1 else r.least
  }

  /**
   * Below the limit (or with no limit) S_StopSoundInfo stops nothing and
   * lets the request through.
   */
  lemma UnderLimitStopsNothing(s: seq<Channel>, sfx: Sfx, request: int)
    requires sfx.numChannels == -1 || PlayingCount(s, sfx) < sfx.numChannels
    ensures StopVictim(s, sfx, request) == -1
    ensures StopAllows(s, sfx, request)
  {
    ScanStopMeaning(s, sfx, request);
  }

  /**
   * At or above the limit, S_StopSoundInfo stops the least-priority
   * qualifying instance (never a looping one of equal priority), ties going
   * to the last non-looping instance; with none qualifying it stops nothing
   * and refuses.
   */
  lemma AtLimitVictim(s: seq<Channel>, sfx: Sfx, request: int)
    requires sfx.numChannels != -1 && PlayingCount(s, sfx) >= sfx.numChannels
    ensures var v := StopVictim(s, sfx, request);
      && -1 <= v < |s|
      && (v == -1 <==> !StopAllows(s, sfx, request))
      && (v != -1 ==>
            && Qualifies(s[v], sfx, request)
            && (forall j :: 0 <= j < |s| && Qualifies(s[j], sfx, request) ==> s[v].priority <= s[j].priority)
            && (forall j :: v < j < |s| && PlaysFrom(s[j], sfx) && !s[j].loop ==> s[v].priority < s[j].priority))
  {
    ScanStopMeaning(s, sfx, request);
  }

  /**
   * Whether S_StopSoundInfo lets the request go on: the sfx is unlimited, or
   * below its limit, or some playing instance can be replaced.
   */
  ghost predicate StopAllows(s: seq<Channel>, sfx: Sfx, request: int) {
    || sfx.numChannels == -1
    || PlayingCount(s, sfx) < sfx.numChannels
    || exists j :: 0 <= j < |s| && Qualifies(s[j], sfx, request)
  }

  /** When S_StopSoundInfo refuses, it has stopped no channel. */
  lemma RefusalStopsNothing(s: seq<Channel>, sfx: Sfx, request: int)
    requires !StopAllows(s, sfx, request)
    ensures StopVictim(s, sfx, request) == -1
  {
    ScanStopMeaning(s, sfx, request);
  }

  /**
   * The ambient guard: an ambient request is refused while the ambient
   * channel holds an sfx of at least its priority.
   */
  predicate AmbientBlocked(ambChan: int, channels: seq<Channel>, sfx: Sfx, params: SfxParams) {
    && params.ambient && 0 <= ambChan < |channels| && channels[ambChan].sfx.Some?
    && sfx.priority <= channels[ambChan].sfx.value.priority
  }

  /** S_StopChannel's effect on AmbChan. */
  function AfterStop(ambChan: int, cnum: int): int {
    if ambChan == cnum then -1 else ambChan
  }

  // ---------------------------------------------------------------------
  // The rotating eviction scan
  // ---------------------------------------------------------------------

  /** sndcount's advance before an eviction scan. */
  function AdvanceCursor(sndCount: nat, numChannels: nat): (r: nat)
    ensures r == 0 || r < numChannels
  {
    if sndCount + 1 >= numChannels then 0 else sndCount + 1
  }

  /** The channel visited c steps after the cursor: `(sndcount + chan) % numChannels`. */
  function Slot(start: nat, c: nat, n: nat): (k: nat)
    requires 0 < n
    ensures k < n
  {
    (start + c) % n
  }

  /** How many steps after the cursor channel k is visited. */
  function StepsTo(start: nat, k: nat, n: nat): (c: nat)
    requires start < n && k < n
    ensures c < n && Slot(start, c, n) == k
  {
    var c := if k >= start then k - start else k + n - start;
    ModWrap(start + c, n);
    c
  }

  /** The cursor-relative step at which the slot is reached. */
  lemma SlotSteps(start: nat, c: nat, n: nat)
    requires start < n && c < n
    ensures StepsTo(start, Slot(start, c, n), n) == c
  {
    ModWrap(start + c, n);
  }

  lemma ModWrap(a: int, n: int)
    requires 0 < n && 0 <= a < 2 * n
    ensures a % n == if a < n then a else a - n
  {
  }

  /**
   * The first channel, visiting Slot(start, c) for c = from, from+1, ...,
   * whose priority does not exceed the request; -1 when none does.
   */
  function RotatingVictim(s: seq<Channel>, start: nat, request: int, from: nat): (r: int)
    ensures -1 <= r < |s|
    ensures r != -1 ==> s[r].priority <= request
    ensures r == -1 <==> forall c :: from <= c < |s| ==> s[Slot(start, c, |s|)].priority > request
    decreases |s| - from
  {
    if from >= |s| then -1
    else if s[Slot(start, from, |s|)].priority <= request then Slot(start, from, |s|)
    else RotatingVictim(s, start, request, from + 1)
  }

  /** The step at which RotatingVictim stops, with everything skipped before it. */
  lemma {:induction false} RotationSteps(s: seq<Channel>, start: nat, request: int, from: nat)
    requires RotatingVictim(s, start, request, from) != -1
    ensures exists c :: from <= c < |s| && RotatingVictim(s, start, request, from) == Slot(start, c, |s|)
              && forall c' :: from <= c' < c ==> s[Slot(start, c', |s|)].priority > request
    decreases |s| - from
  {
    if s[Slot(start, from, |s|)].priority > request {
      RotationSteps(s, start, request, from + 1);
    }
  }

  /**
   * The rotation from the cursor visits every channel once: the eviction
   * scan finds nothing exactly when every channel outranks the request, and
   * every channel it passes over before its find outranks the request.
   */
  lemma RotatingVictimMeaning(s: seq<Channel>, start: nat, request: int)
    requires start < |s|
    ensures var r := RotatingVictim(s, start, request, 0);
      && (r == -1 <==> forall k :: 0 <= k < |s| ==> s[k].priority > request)
      && (r != -1 ==> forall k :: 0 <= k < |s| && StepsTo(start, k, |s|) < StepsTo(start, r, |s|) ==>
                        s[k].priority > request)
  {
    var n := |s|;
    var r := RotatingVictim(s, start, request, 0);
    if r == -1 {
      forall k | 0 <= k < n ensures s[k].priority > request {
        assert Slot(start, StepsTo(start, k, n), n) == k;
      }
    } else {
      RotationSteps(s, start, request, 0);
      var c :| 0 <= c < n && r == Slot(start, c, n)
               && forall c' :: 0 <= c' < c ==> s[Slot(start, c', n)].priority > request;
      SlotSteps(start, c, n);
      forall k | 0 <= k < n && StepsTo(start, k, n) < StepsTo(start, r, n)
        ensures s[k].priority > request
      {
        assert Slot(start, StepsTo(start, k, n), n) == k;
      }
    }
  }

  // ---------------------------------------------------------------------
  // The rules of Raven_S_getChannel, stage by stage
  // ---------------------------------------------------------------------

  /**
   * The "one sound per emitter" check applies: in a level, to an emitter
   * other than the display player's mobj.
   */
  predicate OriginLimited(inLevel: bool, origin: Origin, playerMobj: Origin) {
    inLevel && origin != playerMobj
  }

  /** S_GetSoundID's scan over the table's tag names. */
  method GetSoundID(tagNames: seq<string>, name: string) returns (r: nat)
    ensures (exists j :: 0 <= j < |tagNames| && tagNames[j] == name) ==>
              r < |tagNames| && tagNames[r] == name &&
              forall j :: 0 <= j < r ==> tagNames[j] != name
    ensures (forall j :: 0 <= j < |tagNames| ==> tagNames[j] != name) ==> r == 0
  {
    var i := 0;
    while i < |tagNames|
      invariant 0 <= i <= |tagNames|
      invariant forall j :: 0 <= j < i ==> tagNames[j] != name
    {
      if tagNames[i] == name {
        return i;
      }
      i := i + 1;
    }
    return 0;
  }

  /**
   * The channel pool: the static `channels[]`, `numChannels`, `AmbChan` and
   * Raven_S_getChannel's static `sndcount`.
   */
  class ChannelPool {
    var channels: array<Channel>
    var numChannels: nat
    var ambChan: int
    var sndCount: nat

    ghost predicate Valid()
      reads this, channels
    {
      && channels.Length == MaxChannels
      && numChannels <= MaxChannels
      && (ambChan == -1 || (0 <= ambChan < MaxChannels && channels[ambChan].sfx.Some?))
    }

    /** The channels in use: channels[0 .. numChannels). */
    ghost function Active(): seq<Channel>
      reads this, channels
      requires Valid()
    {
      channels[..numChannels]
    }

    /**
     * Program start followed by S_Init: static storage is zeroed (all
     * channels free, sndcount 0), S_Stop clears AmbChan, and the configured
     * channel count is taken. S_Init does not range-check the count, so the
     * caller must supply one the array can hold.
     */
    constructor (n: nat)
      requires n <= MaxChannels
      ensures Valid() && fresh(channels)
      ensures numChannels == n && ambChan == -1 && sndCount == 0
      ensures forall j :: 0 <= j < MaxChannels ==> channels[j] == FreeChannel
    {
      channels := new Channel[MaxChannels](_ => FreeChannel);
      numChannels := n;
      ambChan := -1;
      sndCount := 0;
    }

    /** S_Init on a running pool: S_Stop, then the new channel count. */
    method Init(n: nat)
      requires Valid() && n <= MaxChannels
      modifies this
      ensures Valid() && channels == old(channels) && unchanged(channels)
      ensures numChannels == n && ambChan == -1 && sndCount == old(sndCount)
    {
      Stop();
      numChannels := n;
    }

    /** S_Stop (and S_Start, which only calls it): forgets the ambient channel. */
    method Stop()
      requires Valid()
      modifies this`ambChan
      ensures Valid() && unchanged(channels)
      ensures ambChan == -1
    {
      ambChan := -1;
    }

    /**
     * S_StopChannel: only forgets the ambient channel if it is `cnum`; no
     * channel record is touched.
     */
    method StopChannel(cnum: int)
      requires Valid()
      modifies this`ambChan
      ensures Valid() && unchanged(channels)
      ensures ambChan == AfterStop(old(ambChan), cnum)
      ensures ambChan == -1 <==> old(ambChan) == -1 || old(ambChan) == cnum
    {
      if ambChan == cnum {
        ambChan := -1;
      }
    }

    /**
     * S_LowestScoreChannel: the first channel of strictly smallest score
     * below INT_MAX; -1 when there is none (in particular with no channels).
     */
    method LowestScoreChannel() returns (r: int)
      requires Valid()
      ensures r == -1 <==> forall j :: 0 <= j < numChannels ==> channels[j].priority >= IntMax
      ensures r != -1 ==>
        && 0 <= r < numChannels
        && (forall j :: 0 <= j < numChannels ==> channels[r].priority <= channels[j].priority)
        && (forall j :: 0 <= j < r ==> channels[r].priority < channels[j].priority)
    {
      var lowestScore := IntMax;
      r := NotFound;
      var cnum := 0;
      while cnum < numChannels
        invariant 0 <= cnum <= numChannels
        invariant -1 <= r < cnum
        invariant lowestScore == if r == -1 then IntMax else channels[r].priority
        invariant r != -1 ==> channels[r].priority < IntMax
        invariant forall j :: 0 <= j < cnum ==> lowestScore <= channels[j].priority
        invariant forall j :: 0 <= j < r ==> lowestScore < channels[j].priority
      {
        var score := ChannelScore(channels[cnum]);
        if score < lowestScore {
          lowestScore := score;
          r := cnum;
        }
        cnum := cnum + 1;
      }
    }

    /**
     * S_StopSoundInfo: lets the request go on (true) when the sfx is
     * unlimited, below its limit, or has a replaceable instance, which is
     * then stopped; refuses (false) and stops nothing otherwise.
     */
    method StopSoundInfo(sfx: Sfx, params: SfxParams) returns (ok: bool)
      requires Valid()
      modifies this`ambChan
      ensures Valid() && unchanged(channels)
      ensures ok == StopAllows(Active(), sfx, params.priority)
      ensures ambChan == AfterStop(old(ambChan), StopVictim(Active(), sfx, params.priority))
    {
      ghost var s := Active();
      ScanStopMeaning(s, sfx, params.priority);
      if sfx.numChannels == -1 {
        return true;
      }

      var priority := params.priority;
      var leastPriority := -1;
      var found := 0;
      var i := 0;
      while i < numChannels
        invariant 0 <= i <= numChannels
        invariant StopScan(leastPriority, priority, found) == ScanStop(channels[..i], sfx, params.priority)
      {
        assert channels[..i + 1][..i] == channels[..i];
        var c := channels[i];
        if c.active && SameSfx(c, sfx) && c.origin != NoOrigin {
          found := found + 1;
          if priority >= c.priority {
            if !c.loop || priority > c.priority {
              leastPriority := i;
              priority := c.priority;
            }
          }
        }
        i := i + 1;
      }
      assert channels[..i] == s;

      if found < sfx.numChannels {
        return true;
      }
      if leastPriority >= 0 {
        StopChannel(leastPriority);
        return true;
      }
      return false;
    }

    /**
     * Raven_S_getChannel's first loop: the first channel already playing the
     * same looping sound from the same emitter for a looping request, or -1.
     */
    method FindRefresh(origin: Origin, sfx: Sfx, requestLoops: bool) returns (k: int)
      requires Valid()
      ensures -1 <= k < numChannels
      ensures k != -1 ==> && channels[k].active && SameSfx(channels[k], sfx)
                          && channels[k].origin == origin && channels[k].loop && requestLoops
      ensures k == FirstIndex(Active(), Refresh(origin, sfx, requestLoops))
    {
      var i := 0;
      while i < numChannels
        invariant 0 <= i <= numChannels
        invariant forall j :: 0 <= j < i ==> !Hits(channels[j], Refresh(origin, sfx, requestLoops))
      {
        var c := channels[i];
        if c.active && SameSfx(c, sfx) && c.origin == origin && c.loop && requestLoops {
          return i;
        }
        i := i + 1;
      }
      return NotFound;
    }

    /**
     * Raven_S_getChannel's second loop: outside a level, or for the display
     * player's mobj, it gives up at once (result numChannels); otherwise it
     * stops at the first channel of the same emitter, numChannels if none.
     */
    method FindOriginChannel(origin: Origin, inLevel: bool, playerMobj: Origin) returns (i: nat)
      requires Valid()
      ensures i <= numChannels
      ensures i < numChannels <==>
                OriginLimited(inLevel, origin, playerMobj) && FirstIndex(Active(), SameOrigin(origin)) != -1
      ensures i < numChannels ==> i == FirstIndex(Active(), SameOrigin(origin))
    {
      i := 0;
      while i < numChannels
        invariant 0 <= i <= numChannels
        invariant forall j :: 0 <= j < i ==> !Hits(channels[j], SameOrigin(origin))
      {
        if !inLevel || origin == playerMobj {
          i := numChannels;
          break;
        }
        if origin == channels[i].origin {
          break;
        }
        i := i + 1;
      }
    }

    /** Raven_S_getChannel's free search: the first inactive channel, numChannels if none. */
    method FindInactive() returns (i: nat)
      requires Valid()
      ensures i <= numChannels
      ensures i < numChannels <==> FirstIndex(Active(), Inactive) != -1
      ensures i < numChannels ==> i == FirstIndex(Active(), Inactive) && !channels[i].active
    {
      i := 0;
      while i < numChannels
        invariant 0 <= i <= numChannels
        invariant forall j :: 0 <= j < i ==> !Hits(channels[j], Inactive)
      {
        if !channels[i].active {
          break;
        }
        i := i + 1;
      }
    }

    /**
     * Raven_S_getChannel's eviction scan from the cursor `start`: the first
     * channel, in rotation, whose priority the request reaches; -1 if every
     * channel outranks it.
     */
    method FindReplaceable(start: nat, priority: int) returns (victim: int)
      requires Valid() && (start == 0 || start < numChannels)
      ensures victim == RotatingVictim(Active(), start, priority, 0)
      ensures victim == -1 <==> forall k :: 0 <= k < numChannels ==> channels[k].priority > priority
      ensures victim != -1 ==> 0 <= victim < numChannels && channels[victim].priority <= priority
    {
      ghost var s := Active();
      var i := 0;
      var chan := 0;
      while chan < numChannels
        invariant 0 <= chan <= numChannels
        invariant RotatingVictim(s, start, priority, 0) == RotatingVictim(s, start, priority, chan)
      {
        i := (start + chan) % numChannels;
        assert i == Slot(start, chan, |s|) && channels[i] == s[i];
        if priority >= channels[i].priority {
          chan := -1;  // the channel to replace
          break;
        }
        chan := chan + 1;
      }
      if chan != -1 {
        victim := NotFound;
      } else {
        victim := i;
      }
      if numChannels > 0 {
        RotatingVictimMeaning(s, start, priority);
      }
    }

    /**
     * Raven_S_getChannel's free search, reached when the request may not
     * reuse its emitter's channel: the ambient guard, then the first
     * inactive channel, else the cursor advances and the first channel in
     * rotation the request outranks or equals is stopped and taken. No
     * channel record is changed.
     */
    method FreeSearch(sfx: Sfx, params: SfxParams) returns (r: int)
      requires Valid()
      modifies this`ambChan, this`sndCount
      ensures Valid() && unchanged(channels)
      ensures r == -1 || 0 <= r < numChannels
      ensures AmbientBlocked(old(ambChan), old(channels[..]), sfx, params) ==>
                r == -1 && ambChan == old(ambChan) && sndCount == old(sndCount)
      ensures !AmbientBlocked(old(ambChan), old(channels[..]), sfx, params) &&
              FirstIndex(Active(), Inactive) != -1 ==>
                && r == FirstIndex(Active(), Inactive)
                && ambChan == (if params.ambient then -1 else old(ambChan))
                && sndCount == old(sndCount)
      ensures !AmbientBlocked(old(ambChan), old(channels[..]), sfx, params) &&
              FirstIndex(Active(), Inactive) == -1 ==>
                && sndCount == AdvanceCursor(old(sndCount), numChannels)
                && r == RotatingVictim(Active(), sndCount, params.priority, 0)
                && ambChan == AfterStop(if params.ambient then -1 else old(ambChan), r)
    {
      ghost var s := Active();
      ghost var free := FirstIndex(s, Inactive);
      if params.ambient {
        if ambChan != -1 && sfx.priority <= channels[ambChan].sfx.value.priority {
          return NotFound;  // ambient channel already in use
        }
        ambChan := -1;
      }

      var i := FindInactive();
      if i >= numChannels {
        sndCount := sndCount + 1;
        if sndCount >= numChannels {
          sndCount := 0;
        }
        var victim := FindReplaceable(sndCount, params.priority);
        if victim == -1 {
          return NotFound;  // no free channels
        }
        StopChannel(victim);
        i := victim;
      }
      r := i;
    }

    /**
     * Raven_S_getChannel: the channel a request for `sfx` from `origin`
     * should play on, or -1. `inLevel` is `gamestate == GS_LEVEL` and
     * `playerMobj` the display player's mobj.
     */
    method RavenGetChannel(origin: Origin, sfx: Sfx, params: SfxParams, inLevel: bool, playerMobj: Origin)
      returns (r: int)
      requires Valid()
      modifies channels, this`ambChan, this`sndCount
      ensures Valid()
      ensures r == -1 || 0 <= r < numChannels
      // 1. The same looping sound from the same emitter: refresh its timeout, nothing else.
      ensures var s := old(Active());
              var k := FirstIndex(s, Refresh(origin, sfx, params.loop));
              k != -1 ==>
                && r == -1
                && channels[..] == old(channels[..])[k := s[k].(loopTimeout := params.loopTimeout)]
                && ambChan == old(ambChan) && sndCount == old(sndCount)
      // Otherwise no channel record changes.
      ensures FirstIndex(old(Active()), Refresh(origin, sfx, params.loop)) == -1 ==>
                channels[..] == old(channels[..])
      // 2. The sfx is at its limit with nothing replaceable: refused.
      ensures var s := old(Active());
              FirstIndex(s, Refresh(origin, sfx, params.loop)) == -1 &&
              !StopAllows(s, sfx, params.priority) ==>
                r == -1 && ambChan == old(ambChan) && sndCount == old(sndCount)
      // 3. The emitter's existing channel is reused.
      ensures var s := old(Active());
              var amb1 := AfterStop(old(ambChan), StopVictim(s, sfx, params.priority));
              && FirstIndex(s, Refresh(origin, sfx, params.loop)) == -1
              && StopAllows(s, sfx, params.priority)
              && OriginLimited(inLevel, origin, playerMobj)
              && FirstIndex(s, SameOrigin(origin)) != -1
              ==> r == FirstIndex(s, SameOrigin(origin)) && ambChan == amb1 && sndCount == old(sndCount)
      // 4. Free search: ambient guard, first inactive channel, else rotating eviction.
      ensures var s := old(Active());
              var amb1 := AfterStop(old(ambChan), StopVictim(s, sfx, params.priority));
              && FirstIndex(s, Refresh(origin, sfx, params.loop)) == -1
              && StopAllows(s, sfx, params.priority)
              && !(OriginLimited(inLevel, origin, playerMobj) && FirstIndex(s, SameOrigin(origin)) != -1)
              ==>
                if AmbientBlocked(amb1, old(channels[..]), sfx, params) then
                  r == -1 && ambChan == amb1 && sndCount == old(sndCount)
                else if FirstIndex(s, Inactive) != -1 then
                  && r == FirstIndex(s, Inactive)
                  && ambChan == (if params.ambient then -1 else amb1)
                  && sndCount == old(sndCount)
                else
                  && sndCount == AdvanceCursor(old(sndCount), numChannels)
                  && r == RotatingVictim(s, sndCount, params.priority, 0)
                  && ambChan == AfterStop(if params.ambient then -1 else amb1, r)
    {
      var k := FindRefresh(origin, sfx, params.loop);
      if k != -1 {
        channels[k] := channels[k].(loopTimeout := params.loopTimeout);
        return NotFound;
      }

      ghost var s := Active();
      var ok := StopSoundInfo(sfx, params);
      if !ok {
        RefusalStopsNothing(s, sfx, params.priority);
        return NotFound;  // other sounds have greater priority
      }
      var i := FindOriginChannel(origin, inLevel, playerMobj);
      if i >= numChannels {
        i := FreeSearch(sfx, params);
      }
      r := i;
    }
  }
}
