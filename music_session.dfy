/**
 * The `Music` cog: one playback session with a voice connection, the track now playing and a
 * FIFO queue of `(player, ctx)` entries, driven by the `play` and `stop` commands and by the
 * background `audio_task` loop.
 *
 * The session's transitions are first given as functions on a `Session` value (`PlayCommand`,
 * `StopCommand`, `DrainStep`), about which the properties are proved; the class `Music` holds
 * the same state in fields and its methods are proved to change it exactly as those functions say.
 */
module MusicSession {
  import opened Wrappers
  import opened YoutubeSource

  /** Identity of a voice channel; the voice client is known only by the channel it joined. */
  type ChannelId = nat

  /** The invocation context of a command; only the message author is used. */
  datatype Context = Context(author: string)

  /** One queue entry: the resolved player and the context of the command that queued it. */
  datatype Entry = Entry(player: Source, ctx: Option<Context>)

  /**
   * The session state: `vc` (the joined channel, or `None`), `current`, the queue `songs`, and
   * whether the background `audio_task` is still running (it ends for good when
   * `asyncio.sleep` raises on a track without a duration).
   */
  datatype Session = Session(vc: Option<ChannelId>, current: Option<Source>, songs: seq<Entry>,
                             running: bool)

  /** A session as `__init__` leaves it: not connected, nothing playing, an empty queue, the task started. */
  const Initial: Session := Session(None, None, [], true)

  const UrlPrefix: string := "https://www.youtube.com/watch?v="

  /** Python's `s.startswith(p)`. */
  predicate StartsWith(s: string, p: string)
  {
    |p| <= |s| && s[..|p|] == p
  }

  /** What a command answers. */
  datatype Reply =
    | InvalidUrl
    | NotInVoice
    | Enqueued(description: string, author: string)
    | ResolveFailed   // `from_url` raised: the command ends with that exception and sends nothing
    | Disconnected
    | NotInChannel

  /** The message a reply sends to the command's channel, if any. */
  function ReplyText(r: Reply): (t: Option<string>)
    ensures t.None? <==> r.ResolveFailed? || r.Disconnected?
  {
    match r
    case InvalidUrl => Some("Sorry, this is not a valid url")
    case NotInVoice => Some("Sorry. You must be in a voice channel for this command")
    case Enqueued(d, a) => Some("Enqueued " + d + " requested by:" + a)
    case ResolveFailed => None
    case Disconnected => None
    case NotInChannel => Some("Sorry. I am not in a channel right now!")
  }

  /**
   * The `play` command. `userChannel` is the author's voice channel (`None` when the author is
   * in none); `resolved` is what `YoutubeSource.from_url` produced for the link (`None` when
   * extraction raised).
   */
  function PlayCommand(s: Session, link: string, userChannel: Option<ChannelId>,
                       resolved: Option<Source>, ctx: Context): (r: (Session, Reply))
    ensures r.0.current == s.current && r.0.running == s.running
    ensures r.1.Enqueued? <==> StartsWith(link, UrlPrefix) && userChannel.Some? && resolved.Some?
    ensures r.1.Enqueued? ==> r.0.songs == s.songs + [Entry(resolved.value, Some(ctx))]
    ensures !r.1.Enqueued? ==> r.0.songs == s.songs
    ensures r.0.vc.None? <==> s.vc.None? && (!StartsWith(link, UrlPrefix) || userChannel.None?)
  {
    if !StartsWith(link, UrlPrefix) then (s, InvalidUrl)
    else if userChannel.None? then (s, NotInVoice)
    else
      var vc := if s.vc.None? then userChannel else s.vc;
      match resolved
      case None => (s.(vc := vc), ResolveFailed)
      case Some(player) =>
        (s.(vc := vc, songs := s.songs + [Entry(player, Some(ctx))]),
         Enqueued(Describe(player), ctx.author))
  }

  /** The `stop` command. */
  function StopCommand(s: Session): (r: (Session, Reply))
    ensures r.0 == s.(vc := None)
    ensures r.1.Disconnected? <==> s.vc.Some?
    ensures r.1.NotInChannel? <==> s.vc.None?
  {
    if s.vc.Some? then (s.(vc := None), Disconnected) else (s, NotInChannel)
  }

  /** What one pass of the `audio_task` loop did. */
  datatype TaskStep =
    | Idle                                             // not connected: the loop sleeps
    | Waiting                                          // connected, queue empty: `get` blocks
    | Started(player: Source, notice: Option<string>)  // front entry taken and handed to the sink
    | Ended                                            // the task has ended: nothing runs any more

  /** The "Now Playing" message for an entry, sent only when the entry has a context. */
  function NowPlaying(e: Entry): (r: Option<string>)
    ensures r.Some? <==> e.ctx.Some?
    ensures r.Some? ==> StartsWith(r.value, "Now Playing: " + Describe(e.player))
  {
    match e.ctx
    case None => None
    case Some(c) => Some("Now Playing: " + Describe(e.player) + " requested by:" + c.author)
  }

  /** Whether playing this entry ends the loop: `asyncio.sleep(None)` raises `TypeError`. */
  predicate EndsLoop(e: Entry)
  {
    e.player.duration.None?
  }

  /**
   * One pass of the `audio_task` loop. A started entry without a duration is still announced
   * and handed to the sink, and then the sleep raises and the task ends.
   */
  function DrainStep(s: Session): (r: (Session, TaskStep))
    ensures r.0.vc == s.vc
    ensures r.1.Started? <==> s.running && s.vc.Some? && s.songs != []
    ensures r.1.Started? ==> [r.1.player] + Players(r.0.songs) == Players(s.songs)
    ensures !r.1.Started? ==> r.0 == s
  {
    if !s.running then (s, Ended)
    else if s.vc.None? then (s, Idle)
    else if s.songs == [] then (s, Waiting)
    else
      var e := s.songs[0];
      (s.(current := Some(e.player), songs := s.songs[1..], running := !EndsLoop(e)),
       Started(e.player, NowPlaying(e)))
  }

  /** The players of a run of queue entries, in order. */
  function Players(es: seq<Entry>): seq<Source>
  {
    seq(|es|, i requires 0 <= i < |es| => es[i].player)
  }

  // ---------------------------------------------------------------- properties of one command

  /** A link without the watch-URL prefix is refused before anything else, and nothing changes. */
  lemma PlayRejectsInvalidUrl(s: Session, link: string, userChannel: Option<ChannelId>,
                              resolved: Option<Source>, ctx: Context)
    requires !StartsWith(link, UrlPrefix)
    ensures PlayCommand(s, link, userChannel, resolved, ctx) == (s, InvalidUrl)
    ensures ReplyText(InvalidUrl) == Some("Sorry, this is not a valid url")
  {
  }

  /** A valid link from an author in no voice channel is refused, and nothing changes. */
  lemma PlayRequiresVoiceChannel(s: Session, link: string, resolved: Option<Source>, ctx: Context)
    requires StartsWith(link, UrlPrefix)
    ensures PlayCommand(s, link, None, resolved, ctx) == (s, NotInVoice)
    ensures ReplyText(NotInVoice) == Some("Sorry. You must be in a voice channel for this command")
  {
  }

  /**
   * An accepted `play` leaves the session connected; it joins the author's channel only when
   * not connected, and otherwise keeps the existing connection. `current` is untouched.
   */
  lemma PlayConnectsOnce(s: Session, link: string, ch: ChannelId,
                         resolved: Option<Source>, ctx: Context)
    requires StartsWith(link, UrlPrefix)
    ensures var (s', _) := PlayCommand(s, link, Some(ch), resolved, ctx);
      && s'.vc.Some? && s'.vc == (if s.vc.Some? then s.vc else Some(ch))
      && s'.current == s.current && s'.running == s.running
  {
  }

  /** Playing again while connected never changes the connection, whatever channel the author is in. */
  lemma ConnectIsIdempotent(s: Session, link: string, userChannel: Option<ChannelId>,
                            resolved: Option<Source>, ctx: Context)
    requires s.vc.Some?
    ensures PlayCommand(s, link, userChannel, resolved, ctx).0.vc == s.vc
  {
  }

  /**
   * An accepted `play` whose extraction succeeds appends exactly one entry, with the author's
   * context, at the back of the queue; every earlier entry keeps its place.
   */
  lemma PlayAppendsAtBack(s: Session, link: string, ch: ChannelId, player: Source, ctx: Context)
    requires StartsWith(link, UrlPrefix)
    ensures var (s', r) := PlayCommand(s, link, Some(ch), Some(player), ctx);
      && |s'.songs| == |s.songs| + 1
      && s'.songs[..|s.songs|] == s.songs
      && s'.songs[|s.songs|] == Entry(player, Some(ctx))
      && r == Enqueued(Describe(player), ctx.author)
  {
  }

  /** When extraction fails after the connection is made, the queue is unchanged and nothing is sent. */
  lemma PlayResolveFailure(s: Session, link: string, ch: ChannelId, ctx: Context)
    requires StartsWith(link, UrlPrefix)
    ensures var (s', r) := PlayCommand(s, link, Some(ch), None, ctx);
      s'.songs == s.songs && s'.current == s.current && s'.vc.Some? && ReplyText(r).None?
  {
  }

  /**
   * `stop` when connected disconnects and keeps the queue and `current`; when not connected it
   * answers "not in a channel" and changes nothing.
   */
  lemma StopKeepsQueue(s: Session)
    ensures var (s', r) := StopCommand(s);
      && s'.vc.None? && s'.songs == s.songs && s'.current == s.current && s'.running == s.running
      && (s.vc.Some? ==> r == Disconnected)
      && (s.vc.None? ==> s' == s && ReplyText(r) == Some("Sorry. I am not in a channel right now!"))
  {
  }

  /**
   * One pass of `audio_task`: while the task runs and the bot is connected with a non-empty
   * queue, it removes exactly the front entry and makes it `current`, announcing it when the
   * entry has a context, and the task goes on exactly when that entry has a duration; otherwise
   * nothing changes. The connection is never changed.
   */
  lemma DrainStepTakesFront(s: Session)
    ensures var (s', step) := DrainStep(s);
      && s'.vc == s.vc
      && (s.running && s.vc.Some? && s.songs != [] ==>
            && s'.current == Some(s.songs[0].player)
            && s'.songs == s.songs[1..]
            && (s'.running <==> s.songs[0].player.duration.Some?)
            && step == Started(s.songs[0].player, NowPlaying(s.songs[0]))
            && (step.notice.Some? <==> s.songs[0].ctx.Some?))
      && (!s.running ==> s' == s && step == Ended)
      && (s.running && s.vc.None? ==> s' == s && step == Idle)
      && (s.running && s.vc.Some? && s.songs == [] ==> s' == s && step == Waiting)
  {
  }

  /** Once the task has ended, no run of commands and passes starts another track. */
  lemma {:induction false} EndedStaysEnded(s: Session, cs: seq<Command>)
    requires !s.running
    ensures !Exec(s, cs).final.running && Exec(s, cs).started == []
    decreases |cs|
  {
    if cs != [] {
      var first := Apply(s, cs[0]);
      assert !first.final.running && first.started == [];
      EndedStaysEnded(first.final, cs[1..]);
    }
  }

  /**
   * How many entries of the queue `es` the first `fuel` passes of a running, connected loop
   * start when no command comes in between: front first, one per pass, stopping when the queue
   * is empty or right after an entry that ends the loop.
   */
  function Reach(es: seq<Entry>, fuel: nat): (r: nat)
    ensures r <= fuel && r <= |es|
    ensures forall i :: 0 <= i < r - 1 ==> !EndsLoop(es[i])
    ensures r < fuel && r < |es| ==> r > 0 && EndsLoop(es[r - 1])
  {
    if fuel == 0 || es == [] then 0
    else if EndsLoop(es[0]) then 1
    else 1 + Reach(es[1..], fuel - 1)
  }

  /** One more pass of a loop that is still going starts one more entry. */
  lemma {:induction false} ReachGrows(es: seq<Entry>, n: nat)
    requires Reach(es, n) == n && n < |es|
    requires n == 0 || !EndsLoop(es[n - 1])
    ensures Reach(es, n + 1) == n + 1
  {
    if n > 0 {
      assert !EndsLoop(es[0]);
      ReachGrows(es[1..], n - 1);
    }
  }

  /** One more pass of a loop that has stopped or drained its queue starts nothing. */
  lemma {:induction false} ReachStays(es: seq<Entry>, n: nat)
    requires Reach(es, n) < n || Reach(es, n) == |es|
             || (Reach(es, n) > 0 && EndsLoop(es[Reach(es, n) - 1]))
    ensures Reach(es, n + 1) == Reach(es, n)
  {
    if n > 0 && es != [] && !EndsLoop(es[0]) {
      var r' := Reach(es[1..], n - 1);
      assert Reach(es, n) == 1 + r';
      if r' > 0 && 1 + r' > 0 && EndsLoop(es[r']) {
        assert es[r'] == es[1..][r' - 1];
      }
      ReachStays(es[1..], n - 1);
    }
  }

  /** One more pass starts the next entry exactly when the loop is still going and the queue is not drained. */
  lemma ReachNext(es: seq<Entry>, n: nat)
    ensures var k := Reach(es, n);
      Reach(es, n + 1) == if k < |es| && (k == 0 || !EndsLoop(es[k - 1])) then k + 1 else k
  {
    var k := Reach(es, n);
    if k < |es| && (k == 0 || !EndsLoop(es[k - 1])) {
      ReachGrows(es, n);
    } else {
      ReachStays(es, n);
    }
  }

  lemma PlayersSnoc(es: seq<Entry>, k: nat)
    requires k < |es|
    ensures Players(es[..k + 1]) == Players(es[..k]) + [es[k].player]
  {
  }

  // ---------------------------------------------------------------- runs of commands

  /** Anything that can happen to a session: a command, or one pass of the loop. */
  datatype Command =
    | PlayCmd(link: string, userChannel: Option<ChannelId>, resolved: Option<Source>, ctx: Context)
    | StopCmd
    | Tick

  /** The end of a run, with the players started by the loop and those enqueued by `play`, in order. */
  datatype Run = Run(final: Session, started: seq<Source>, enqueued: seq<Source>)

  /** One command. */
  function Apply(s: Session, c: Command): Run
  {
    match c
    case PlayCmd(link, ch, res, ctx) =>
      var (s', r) := PlayCommand(s, link, ch, res, ctx);
      Run(s', [], if r.Enqueued? then [res.value] else [])
    case StopCmd =>
      Run(StopCommand(s).0, [], [])
    case Tick =>
      var (s', step) := DrainStep(s);
      Run(s', if step.Started? then [step.player] else [], [])
  }

  /** A sequence of commands, applied in order. */
  function Exec(s: Session, cs: seq<Command>): Run
    decreases |cs|
  {
    if cs == [] then Run(s, [], [])
    else
      var first := Apply(s, cs[0]);
      var rest := Exec(first.final, cs[1..]);
      Run(rest.final, first.started + rest.started, first.enqueued + rest.enqueued)
  }

  lemma PlayersAppend(a: seq<Entry>, b: seq<Entry>)
    ensures Players(a + b) == Players(a) + Players(b)
  {
  }

  /** One command conserves the queue: what was queued or enqueued was either started or is still queued. */
  lemma ApplyConserves(s: Session, c: Command)
    ensures var r := Apply(s, c);
      Players(s.songs) + r.enqueued == r.started + Players(r.final.songs)
  {
    match c
    case PlayCmd(link, ch, res, ctx) =>
      var (s', r) := PlayCommand(s, link, ch, res, ctx);
      if r.Enqueued? {
        PlayersAppend(s.songs, [Entry(res.value, Some(ctx))]);
      }
    case StopCmd =>
    case Tick =>
  }

  /** Two conserving stretches of a run, one after the other, conserve as a whole. */
  lemma ChainConservation<T>(q0: seq<T>, e1: seq<T>, s1: seq<T>, q1: seq<T>,
                             e2: seq<T>, s2: seq<T>, q2: seq<T>)
    requires q0 + e1 == s1 + q1
    requires q1 + e2 == s2 + q2
    ensures q0 + (e1 + e2) == (s1 + s2) + q2
  {
    calc {
      q0 + (e1 + e2);
      (q0 + e1) + e2;
      (s1 + q1) + e2;
      s1 + (q1 + e2);
      s1 + (s2 + q2);
    }
  }

  /**
   * FIFO under any interleaving of commands and loop passes: the players that were queued at the
   * start, followed by those enqueued during the run, are exactly the players started during the
   * run followed by those still queued at the end.
   */
  lemma {:induction false} ExecConserves(s: Session, cs: seq<Command>)
    ensures var r := Exec(s, cs);
      Players(s.songs) + r.enqueued == r.started + Players(r.final.songs)
    decreases |cs|
  {
    if cs != [] {
      var first := Apply(s, cs[0]);
      var rest := Exec(first.final, cs[1..]);
      ApplyConserves(s, cs[0]);
      ExecConserves(first.final, cs[1..]);
      assert Exec(s, cs) == Run(rest.final, first.started + rest.started, first.enqueued + rest.enqueued);
      ChainConservation(Players(s.songs), first.enqueued, first.started, Players(first.final.songs),
                        rest.enqueued, rest.started, Players(rest.final.songs));
    }
  }

  /**
   * Starting from an empty queue (a fresh session, say), the loop starts tracks in exactly the
   * order they were enqueued: the started players are a prefix of the enqueued ones, and the
   * rest of the enqueued players are what is still queued.
   */
  lemma PlaysInSubmissionOrder(s: Session, cs: seq<Command>)
    requires s.songs == []
    ensures var r := Exec(s, cs);
      && |r.started| <= |r.enqueued|
      && r.started == r.enqueued[..|r.started|]
      && Players(r.final.songs) == r.enqueued[|r.started|..]
  {
    var r := Exec(s, cs);
    ExecConserves(s, cs);
    assert Players(s.songs) == [];
    assert r.enqueued == r.started + Players(r.final.songs);
  }

  // ---------------------------------------------------------------- the cog as an object

  /** The `Music` cog, holding its session in fields that its commands update in place. */
  class Music {
    var vc: Option<ChannelId>
    var current: Option<Source>
    var songs: seq<Entry>
    var running: bool  // whether the `audio_task` created by `__init__` is still alive

    /** The session value the fields hold. */
    function State(): Session
      reads this
    {
      Session(vc, current, songs, running)
    }

    /** `__init__`: not connected, nothing playing, an empty queue, the loop task started. */
    constructor ()
      ensures State() == Initial
    {
      vc := None;
      current := None;
      songs := [];
      running := true;
    }

    /** The `play` command, answering with its reply instead of sending it. */
    method Play(link: string, userChannel: Option<ChannelId>, resolved: Option<Source>, ctx: Context)
      returns (reply: Reply)
      modifies this
      ensures (State(), reply) == PlayCommand(old(State()), link, userChannel, resolved, ctx)
    {
      if !StartsWith(link, UrlPrefix) {
        return InvalidUrl;
      }
      if userChannel.Some? {
        if vc.None? {
          vc := userChannel;
        }
        if resolved.None? {
          return ResolveFailed;
        }
        var player := resolved.value;
        reply := Enqueued(Describe(player), ctx.author);
        songs := songs + [Entry(player, Some(ctx))];
      } else {
        reply := NotInVoice;
      }
    }

    /** The `stop` command. */
    method Stop() returns (reply: Reply)
      modifies this
      ensures (State(), reply) == StopCommand(old(State()))
      ensures vc.None? && songs == old(songs) && current == old(current)
    {
      if vc.Some? {
        vc := None;
        reply := Disconnected;
      } else {
        reply := NotInChannel;
      }
    }

    /** One pass of the body of `audio_task`'s `while True` loop, once the task has ended a no-op. */
    method AudioStep() returns (step: TaskStep)
      modifies this
      ensures (State(), step) == DrainStep(old(State()))
    {
      if !running {
        return Ended;
      }
      if vc.Some? {
        if songs == [] {
          step := Waiting;
        } else {
          var e := songs[0];
          songs := songs[1..];
          current := Some(e.player);
          step := Started(e.player, NowPlaying(e));
          if e.player.duration.None? {
            running := false;  // `asyncio.sleep(None)` raises and the task ends
          }
        }
      } else {
        step := Idle;
      }
    }

    /**
     * The first `fuel` passes of `audio_task`, with no command in between. While the task runs
     * and the bot is connected, it starts the front `Reach(songs, fuel)` entries in queue order;
     * the task survives unless the last of them has no duration. Otherwise nothing changes.
     */
    method AudioTask(fuel: nat) returns (started: seq<Source>)
      modifies this
      ensures vc == old(vc)
      ensures !old(running) || old(vc).None? ==>
        songs == old(songs) && current == old(current) && running == old(running) && started == []
      ensures old(running) && old(vc).Some? ==>
        var k := Reach(old(songs), fuel);
        && songs == old(songs)[k..]
        && started == Players(old(songs)[..k])
        && current == (if k == 0 then old(current) else Some(old(songs)[k - 1].player))
        && (running <==> k == 0 || !EndsLoop(old(songs)[k - 1]))
    {
      started := [];
      ghost var es, live := songs, running && vc.Some?;
      var i := 0;
      while i < fuel
        invariant i <= fuel
        invariant vc == old(vc)
        invariant !live ==>
          songs == es && current == old(current) && running == old(running) && started == []
        invariant live ==>
          var k := Reach(es, i);
          && songs == es[k..]
          && started == Players(es[..k])
          && current == (if k == 0 then old(current) else Some(es[k - 1].player))
          && (running <==> k == 0 || !EndsLoop(es[k - 1]))
      {
        ghost var k := Reach(es, i);
        ReachNext(es, i);
        var step := AudioStep();
        if step.Started? {
          started := started + [step.player];
          PlayersSnoc(es, k);
        }
        i := i + 1;
      }
    }
  }
}
