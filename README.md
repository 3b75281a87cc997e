# Music cog of the UO CS Discord bot, modelled in Dafny

The bot's `Music` cog keeps one playback session: a voice connection (`vc`), the track now
playing (`current`) and a FIFO queue `songs` of `(player, ctx)` entries. The `play` command
checks the link, checks that the author is in a voice channel, joins that channel when the bot
is not connected yet, resolves the link into a `YoutubeSource` and appends it to the queue. The
`stop` command disconnects. The background `audio_task` loop takes the front entry when the bot
is connected and plays it. It ends for good once it has started an entry without a duration,
because `asyncio.sleep(None)` raises. A `YoutubeSource` describes itself as
`"<title> by <uploader>"`, followed by `[length: Mm Ss]` when the duration is truthy (present
and non-zero). Before extraction, `from_url` builds the
youtube-dl options from fixed defaults, overridden by the caller's options.

Files:

- `wrappers.dfy`: module `Wrappers`, the `Option` datatype (Python's `None` or a value).
- `decimal.dfy`: module `Decimal`, Python's `str(n)` for integers (`NatStr`, `IntStr`). It also
  has the parser that reads a numeral back, with the round-trip lemmas.
- `youtube_source.dfy`: module `YoutubeSource`, with the track record `Source`, its text form
  `Describe` (`__str__`) and the option merge `MergeOptions`. `DecodeLength` is a reader for the
  length suffix. It is the reference used to prove what the suffix says.
- `music_session.dfy`: module `MusicSession`. It gives the session transitions as functions on a
  `Session` value (`PlayCommand`, `StopCommand`, `DrainStep`) and proves the properties about
  them. It also runs arbitrary interleavings of commands and loop passes (`Exec`) and proves
  FIFO order for them. The class `Music` keeps the same state in fields. Its methods `Play`,
  `Stop` and `AudioStep` update those fields in place, and each is proved to change them exactly
  as `PlayCommand`, `StopCommand` and `DrainStep` say. `AudioTask` runs the loop for a bounded
  number of passes. Its contract states the new fields directly, using `Reach`: the number of
  entries those passes start.

Modelling choices:

- The voice client is modelled by the channel it joined (`vc: Option<ChannelId>`). This shows
  what the code does when the bot is already connected: `play` keeps the old connection, even
  when the author is in another channel.
- `ctx.send` becomes a returned `Reply`. `ReplyText` gives the exact message text, or `None`
  when nothing is sent.
- The resolved track is a parameter `resolved: Option<Source>`. `None` stands for
  `from_url` raising. The connection has then already been made, nothing is enqueued and the
  command sends nothing (`ResolveFailed`).
- Queue entries carry `ctx: Option<Context>`, because `audio_task` tests `ctx is not None`.
  `play` always enqueues a context.
- The session records whether the `audio_task` coroutine is still alive (`running`). When the
  loop starts an entry whose duration is `None`, the entry is still announced and handed to the
  sink. Then `asyncio.sleep(None)` raises `TypeError`, the task ends, and no later pass starts
  anything. Commands keep working after that.
- `divmod(d, 60)` floors. With the positive divisor 60, Python's flooring division and modulo
  agree with Dafny's `/` and `%`, negative `d` included.
- `info.get` may return `None`, so `title` and `uploader` are `Option<string>`. An absent value
  prints as `None`, as an f-string prints it.

Two behaviours worth noting:

- `stop` only disconnects. It does not clear the queue or `current`.
- `play` joins the author's channel by itself when the bot is not connected.

## Model

| member | source | states |
|---|---|---|
| `Decimal.NatStr` | src/media/song_player.py:49 | `str` of a natural is a non-empty digit string with no leading zero |
| `Decimal.IntStr` | src/media/song_player.py:49 | `str` of an integer starts with `-` exactly when it is negative; the rest is digits with no leading zero |
| `Decimal.ParseNatStr` | src/media/song_player.py:49 | reading a printed natural back gives the same number |
| `Decimal.IntStrRoundTrip` | src/media/song_player.py:49 | a printed integer is a well-formed numeral, and reading it back gives the same number |
| `YoutubeSource.Describe` | src/media/song_player.py:46-50 | the description starts with `"<title> by <uploader>"` (absent fields print `None`); it is longer than that exactly when the duration is truthy |
| `YoutubeSource.LengthSuffixDecodes` | src/media/song_player.py:49 | the suffix `[length: Mm Ss]` decodes, and its `M`, `S` satisfy `M*60 + S == duration` and `0 <= S < 60` |
| `YoutubeSource.DescribeShowsDuration` | src/media/song_player.py:46-50 | a falsy duration (absent or 0) leaves the headline alone; a truthy one is followed by a suffix whose minutes and seconds add up to it |
| `YoutubeSource.MergeOptions` | src/media/song_player.py:32-38 | without caller options the defaults are used; otherwise keys are the union, every caller key has the caller's value, and every other default key keeps its default |
| `MusicSession.PlayCommand` | src/media/song_player.py:75-95 | only `play` with a valid link, a voice channel and a successful extraction changes the queue, by exactly one entry at the back; `current` and the task are untouched; the session is left disconnected only when it was disconnected and the link or the voice channel was refused |
| `MusicSession.StopCommand` | src/media/song_player.py:98-103 | `stop` leaves the session disconnected with everything else unchanged, and replies "disconnected" exactly when it was connected |
| `MusicSession.NowPlaying` | src/media/song_player.py:67-68 | the "Now Playing" message is sent exactly when the entry has a context, and starts with `Now Playing: ` and the track's description |
| `MusicSession.DrainStep` | src/media/song_player.py:63-72 | a pass starts a track exactly when the task runs, the bot is connected and the queue is non-empty; the started track followed by the remaining queue is the old queue; otherwise nothing changes; the connection never changes |
| `MusicSession.EndedStaysEnded` | src/media/song_player.py:62-72 | once the task has ended, no run of commands and passes starts another track, and the task stays ended |
| `MusicSession.Reach` | src/media/song_player.py:62-72 | the number of entries that `fuel` passes start: at most `fuel` and the queue length; every started entry but the last has a duration; it falls short only after an entry without a duration |
| `MusicSession.ReplyText` | src/media/song_player.py:76-103 | every command sends a message, except `stop` when connected and `play` when extraction raises |
| `MusicSession.PlayRejectsInvalidUrl` | src/media/song_player.py:76-78 | a link without the `https://www.youtube.com/watch?v=` prefix gets the invalid-URL reply and changes nothing |
| `MusicSession.PlayRequiresVoiceChannel` | src/media/song_player.py:80-86 | a valid link from an author in no voice channel gets the "must be in a voice channel" reply and changes nothing |
| `MusicSession.PlayConnectsOnce` | src/media/song_player.py:86-88 | an accepted `play` leaves the session connected: to the author's channel if it was not connected, and to the old channel otherwise; `current` is untouched |
| `MusicSession.ConnectIsIdempotent` | src/media/song_player.py:87-88 | while connected, `play` never changes the connection |
| `MusicSession.PlayAppendsAtBack` | src/media/song_player.py:90-92 | a successful `play` appends exactly one `(player, ctx)` entry at the back, earlier entries keep their order, and it replies "Enqueued" with the description |
| `MusicSession.PlayResolveFailure` | src/media/song_player.py:87-90 | when extraction raises after connecting, the session stays connected, the queue and `current` are unchanged and nothing is sent |
| `MusicSession.StopKeepsQueue` | src/media/song_player.py:98-103 | `stop` leaves the session disconnected and keeps queue and `current`; when not connected it replies "not in a channel" and changes nothing |
| `MusicSession.DrainStepTakesFront` | src/media/song_player.py:63-72 | one loop pass, while the task runs and the bot is connected with a non-empty queue, removes exactly the front entry, makes it `current` and announces it with `NowPlaying`; the task goes on exactly when that entry has a duration; an ended task, a disconnected bot or an empty queue change nothing; the connection never changes |
| `MusicSession.ApplyConserves` | src/media/song_player.py:62-103 | one command or loop pass neither loses nor reorders tracks: queued + enqueued == started + still queued |
| `MusicSession.ExecConserves` | src/media/song_player.py:62-103 | the same holds for any interleaving of commands and loop passes |
| `MusicSession.PlaysInSubmissionOrder` | src/media/song_player.py:59-92 | from an empty queue, the tracks started are a prefix of the tracks enqueued, in the same order, and the rest are still queued |
| `MusicSession.Music.constructor` | src/media/song_player.py:54-60 | a new cog is not connected, plays nothing, has an empty queue and its loop task is running |
| `MusicSession.Music.Play` | src/media/song_player.py:74-95 | the `play` method changes the fields and replies exactly as `PlayCommand` says |
| `MusicSession.Music.Stop` | src/media/song_player.py:97-103 | the `stop` method disconnects and keeps queue and `current`, as `StopCommand` says |
| `MusicSession.Music.AudioStep` | src/media/song_player.py:63-72 | one pass of the loop body changes the fields as `DrainStep` says |
| `MusicSession.Music.AudioTask` | src/media/song_player.py:62-72 | `fuel` passes with no commands in between: while running and connected, the front `Reach(songs, fuel)` entries start in queue order, `current` is the last of them, and the task survives unless that one has no duration; an ended task or a disconnected bot change nothing |

## Left out

- Extraction in `from_url` (src/media/song_player.py:40-44): youtube-dl, the executor call and building `FFmpegPCMAudio` are network calls and foreign libraries. Their result is the parameter `resolved`.
- The `YoutubeSource` constructor (src/media/song_player.py:9-16): it copies fields out of youtube-dl's dynamically typed info dictionary. A `Source` is built directly from those fields instead. The volume transformer and its float volume 0.8 are not modelled.
- Discord I/O: `ctx.send`, `channel.connect()`, `vc.play`, `vc.disconnect` and the `print` at line 66. Sends are returned replies; connecting and disconnecting set `vc`. None of these calls is modelled as failing: not `channel.connect()`, `ctx.send`, `vc.play` or `vc.disconnect`.
- MusicSession.DrainStep: it assumes the loop survives the Discord calls in a pass. A raising `ctx.send` at line 68 would end `audio_task`. So would `vc.play` at line 69, which raises when earlier audio is still playing. That happens when a track plays longer than its whole-second `duration` (for example a duration of 0, which makes `asyncio.sleep` return at once). Whether it happens depends on real time, which the model leaves out. The model ends the task only on a missing duration.
- MusicSession.PlayCommand: it assumes the "Enqueued" send at line 91 succeeds, so an `Enqueued` reply always comes with the append. If that send raised, line 92's `put` would not run and nothing would be enqueued.
- Timing and scheduling: how long `asyncio.sleep` waits, the unused `asyncio.Event`, the creation of the background task, and the blocking of `Queue.get`. A pass on an empty queue is the `Waiting` outcome with no change. Interleavings are modelled as sequences of whole commands and whole loop passes. Suspension in the middle of a command or a pass is not modelled. One case left out is a `stop` that arrives while `get` is blocked.
- The unbounded `while True` loop: `Music.AudioTask` runs a bounded number of passes with no commands in between. Runs that interleave commands with passes are covered by `Exec` over `Tick` commands.
- Durations that are not integers (a float from youtube-dl) are not modelled.
- src/bot.py: startup wiring (bot construction, loading opus, registering the cog, `bot.run`) with no logic.
