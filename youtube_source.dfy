/**
 * The pure parts of `YoutubeSource`: the metadata a resolved track carries, its text form
 * (`__str__`), and the youtube-dl options that `from_url` builds before extraction.
 */
module YoutubeSource {
  import opened Wrappers
  import Decimal

  /**
   * A resolved track: the fields the constructor copies out of youtube-dl's info dictionary
   * with `info.get`, so each may be absent (`None`). The playable audio handle is opaque and
   * not part of this record.
   */
  datatype Source = Source(
    uploader: Option<string>,
    views: Option<int>,
    likes: Option<int>,
    title: Option<string>,
    duration: Option<int>)

  /** How an f-string renders an optional text field: an absent value prints as `None`. */
  function Show(v: Option<string>): string
  {
    match v
    case None => "None"
    case Some(s) => s
  }

  /** Python truthiness of the duration: absent and zero are false. */
  predicate IsTruthy(d: Option<int>)
  {
    d.Some? && d.value != 0
  }

  /** The fixed part of the description: `"<title> by <uploader>"`. */
  function Headline(src: Source): string
  {
    Show(src.title) + " by " + Show(src.uploader)
  }

  const LengthOpen: string := "[length: "

  /**
   * The suffix `[length: Mm Ss]` for a duration in seconds, where `(M, S) == divmod(d, 60)`.
   * Python's `divmod` floors; with the positive divisor 60 that agrees with Dafny's `/` and `%`.
   */
  function LengthSuffix(d: int): string
  {
    LengthOpen + Decimal.IntStr(d / 60) + "m " + Decimal.IntStr(d % 60) + "s]"
  }

  /** `str(source)`: the headline, followed by the length suffix exactly when the duration is truthy. */
  function Describe(src: Source): (r: string)
    ensures |Headline(src)| <= |r| && r[..|Headline(src)|] == Headline(src)
    ensures |r| > |Headline(src)| <==> IsTruthy(src.duration)
  {
    var result := Headline(src);
    if IsTruthy(src.duration) then result + LengthSuffix(src.duration.value) else result
  }

  /** Minutes and seconds as they appear in a length suffix. */
  datatype Length = Length(minutes: int, seconds: int)

  /** The position of the first `c` in `s`, or `|s|` when there is none. */
  function IndexOf(s: string, c: char): (i: nat)
    ensures i <= |s|
    ensures i < |s| ==> s[i] == c
    ensures forall k :: 0 <= k < i ==> s[k] != c
  {
    if s == [] then 0 else if s[0] == c then 0 else 1 + IndexOf(s[1..], c)
  }

  /** Reads a length suffix `[length: Mm Ss]` back into its minutes and seconds. */
  function DecodeLength(s: string): Option<Length>
  {
    var n := |LengthOpen|;
    if |s| < n + 2 || s[..n] != LengthOpen || s[|s| - 2..] != "s]" then None
    else
      var body := s[n..|s| - 2];
      var i := IndexOf(body, 'm');
      if i + 2 <= |body| && body[i + 1] == ' '
         && Decimal.IsIntText(body[..i]) && Decimal.IsDigits(body[i + 2..])
      then Some(Length(Decimal.ParseInt(body[..i]), Decimal.ParseNat(body[i + 2..])))
      else None
  }

  /** A well-formed suffix around the numerals `a` and `b` decodes to their values. */
  lemma DecodeFramed(a: string, b: string)
    requires Decimal.IsIntText(a) && 'm' !in a && Decimal.IsDigits(b)
    ensures DecodeLength(LengthOpen + a + "m " + b + "s]")
            == Some(Length(Decimal.ParseInt(a), Decimal.ParseNat(b)))
  {
    var s := LengthOpen + a + "m " + b + "s]";
    var n := |LengthOpen|;
    assert s == LengthOpen + (a + "m " + b) + "s]";
    assert s[..n] == LengthOpen;
    assert s[|s| - 2..] == "s]";
    var body := s[n..|s| - 2];
    assert body == a + "m " + b;
    assert body[|a|] == 'm';
    assert forall k :: 0 <= k < |a| ==> body[k] == a[k];
    var i := IndexOf(body, 'm');
    assert i == |a|;
    assert body[..i] == a;
    assert body[i + 2..] == b;
  }

  /**
   * The suffix shows `M` minutes and `S` seconds with `M * 60 + S == d` and `0 <= S < 60`:
   * reading it back recovers exactly the duration.
   */
  lemma LengthSuffixDecodes(d: int)
    ensures DecodeLength(LengthSuffix(d)).Some?
    ensures var len := DecodeLength(LengthSuffix(d)).value;
      len.minutes * 60 + len.seconds == d && 0 <= len.seconds < 60
  {
    var a, b := Decimal.IntStr(d / 60), Decimal.IntStr(d % 60);
    Decimal.IntStrAvoids(d / 60, 'm');
    Decimal.IntStrRoundTrip(d / 60);
    Decimal.IntStrRoundTrip(d % 60);
    assert Decimal.ParseNat(b) == d % 60;
    DecodeFramed(a, b);
    assert LengthSuffix(d) == LengthOpen + a + "m " + b + "s]";
  }

  /**
   * A truthy duration is shown after the headline, and the minutes and seconds shown
   * add up to it; otherwise the description is the headline alone.
   */
  lemma DescribeShowsDuration(src: Source)
    ensures !IsTruthy(src.duration) ==> Describe(src) == Headline(src)
    ensures IsTruthy(src.duration) ==>
      var len := DecodeLength(Describe(src)[|Headline(src)|..]);
      len.Some? && len.value.minutes * 60 + len.value.seconds == src.duration.value
      && 0 <= len.value.seconds < 60
  {
    if IsTruthy(src.duration) {
      var d := src.duration.value;
      assert Describe(src)[|Headline(src)|..] == LengthSuffix(d);
      LengthSuffixDecodes(d);
    }
  }

  /** A value in youtube-dl's options dictionary. */
  datatype Setting = Text(text: string) | Flag(flag: bool) | Number(number: int)

  /** The options `from_url` starts from. */
  const DefaultOptions: map<string, Setting> :=
    map["format" := Text("webm[abr>0]/bestaudio/best"), "prefer_ffmpeg" := Flag(true)]

  /**
   * The options handed to youtube-dl: the defaults, updated key by key with the caller's
   * `opts` when they are given.
   */
  function MergeOptions(opts: Option<map<string, Setting>>): (r: map<string, Setting>)
    ensures opts.None? ==> r == DefaultOptions
    ensures opts.Some? ==> r.Keys == DefaultOptions.Keys + opts.value.Keys
    ensures opts.Some? ==> forall k :: k in opts.value ==> r[k] == opts.value[k]
    ensures forall k :: k in DefaultOptions && (opts.None? || k !in opts.value) ==>
      k in r && r[k] == DefaultOptions[k]
  {
    match opts
    case None => DefaultOptions
    case Some(o) => DefaultOptions + o
  }
}
