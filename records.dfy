/** The records the page fetches for each user, and JavaScript truthiness on their fields. */
module Records {
  import opened Wrappers

  /** A channel record. Every text field may be missing; `error` is set for a closed channel. */
  datatype Channel = Channel(
    url: Option<string>,
    logo: Option<string>,
    displayName: Option<string>,
    status: Option<string>,
    error: Option<string>)

  /** The medium-size preview of a live session. */
  datatype Preview = Preview(medium: Option<string>)

  /** The nested live-session object of a stream record. */
  datatype Live = Live(game: Option<string>, viewers: Option<int>, preview: Option<Preview>)

  /** A stream record; `stream` is present only while the channel is live. */
  datatype StreamInfo = StreamInfo(stream: Option<Live>)

  /** What `loadAll` receives for one user; `FetchUser` yields both records or neither. */
  datatype Fetched = Fetched(channel: Option<Channel>, stream: Option<StreamInfo>)

  /** The outcome of one request: a parsed JSON body, or a network or parse failure. */
  datatype Response<T> = Parsed(value: T) | Failed

  /** A text field is truthy when it is present and not the empty string. */
  predicate Truthy(o: Option<string>) {
    o.Some? && o.value != ""
  }

  /** `o || fallback` on a text field. */
  function Or(o: Option<string>, fallback: string): string {
    if Truthy(o) then o.value else fallback
  }

  /** `n || 0` on a number field. */
  function OrZero(n: Option<int>): int {
    if n.Some? && n.value != 0 then n.value else 0
  }

  /** `channel && channel.<field>` for each text field of a possibly null channel. */
  function Url(ch: Option<Channel>): Option<string> {
    if ch.Some? then ch.value.url else None
  }

  function Logo(ch: Option<Channel>): Option<string> {
    if ch.Some? then ch.value.logo else None
  }

  function DisplayName(ch: Option<Channel>): Option<string> {
    if ch.Some? then ch.value.displayName else None
  }

  function Status(ch: Option<Channel>): Option<string> {
    if ch.Some? then ch.value.status else None
  }

  /** `stream && stream.stream`: the user is live. */
  predicate IsLive(st: Option<StreamInfo>) {
    st.Some? && st.value.stream.Some?
  }

  /** `channel && channel.error`: the channel does not exist or was closed. */
  predicate IsClosed(ch: Option<Channel>) {
    ch.Some? && Truthy(ch.value.error)
  }

  /**
   * The result of fetching one user from its two responses: a failure of either
   * request discards both, so a partial success looks like a total failure.
   */
  function FetchUser(ch: Response<Channel>, st: Response<StreamInfo>): (r: Fetched)
    ensures r.channel.Some? <==> r.stream.Some?
    ensures r.channel.Some? <==> ch.Parsed? && st.Parsed?
    ensures r.channel.Some? ==> r.channel.value == ch.value && r.stream.value == st.value
  {
    match (ch, st)
    case (Parsed(c), Parsed(s)) => Fetched(Some(c), Some(s))
    case _ => Fetched(None, None)
  }
}
