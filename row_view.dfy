/** The pure part of rendering one user: the row a user's records turn into. */
module RowView {
  import opened Wrappers
  import opened Records

  const ProfileBase := "https://www.twitch.tv/"
  const PlaceholderLogo := "https://static-cdn.jtvnw.net/jtv_user_pictures/hosted_images/GlitchIcon_purple.png"
  /** Put between the title and a non-empty status text. */
  const Separator := " — "

  /** The badge of a row; each row carries exactly one. */
  datatype Badge = Online | Closed | Offline

  /**
   * What follows the title block: the details of a live session (with the
   * preview image when there is one), or else an optional status line.
   */
  datatype Body =
    | Details(game: string, viewers: int, preview: Option<string>)
    | Description(line: Option<string>)

  /** A rendered row, with its DOM nodes abstracted to the values they show. */
  datatype Row = Row(
    link: string,
    logo: string,
    title: string,
    status: string,
    suffix: string,
    badge: Badge,
    body: Body)

  function ProfileUrl(user: string): string {
    ProfileBase + user
  }

  /** A live session's details: game and viewers with defaults, the preview only when its URL is truthy. */
  function LiveDetails(s: Live): Body {
    var previewUrl := if s.preview.Some? then s.preview.value.medium else None;
    Details(Or(s.game, ""), OrZero(s.viewers), if Truthy(previewUrl) then previewUrl else None)
  }

  /** The row `renderRow` builds for `user` from its (possibly null) records. */
  function BuildRow(user: string, ch: Option<Channel>, st: Option<StreamInfo>): Row {
    var statusText := Or(Status(ch), "");
    Row(
      Or(Url(ch), ProfileUrl(user)),
      Or(Logo(ch), PlaceholderLogo),
      Or(DisplayName(ch), user),
      statusText,
      if statusText != "" then Separator + statusText else "",
      if IsLive(st) then Online else if IsClosed(ch) then Closed else Offline,
      if IsLive(st) then LiveDetails(st.value.stream.value)
      else if Truthy(Status(ch)) then Description(Status(ch))
      else Description(None))
  }

  /** Online wins over closed, closed over offline, and exactly one badge holds. */
  lemma BadgeClassification(user: string, ch: Option<Channel>, st: Option<StreamInfo>)
    ensures BuildRow(user, ch, st).badge == Online <==> IsLive(st)
    ensures BuildRow(user, ch, st).badge == Closed <==> !IsLive(st) && IsClosed(ch)
    ensures BuildRow(user, ch, st).badge == Offline <==> !IsLive(st) && !IsClosed(ch)
  {
  }

  /** Each text field takes the channel's value when truthy, and its own default otherwise. */
  lemma RowDefaults(user: string, ch: Option<Channel>, st: Option<StreamInfo>)
    ensures var r := BuildRow(user, ch, st);
      && (Truthy(Url(ch)) ==> r.link == Url(ch).value)
      && (!Truthy(Url(ch)) ==> r.link == ProfileUrl(user))
      && (Truthy(Logo(ch)) ==> r.logo == Logo(ch).value)
      && (!Truthy(Logo(ch)) ==> r.logo == PlaceholderLogo)
      && (Truthy(DisplayName(ch)) ==> r.title == DisplayName(ch).value)
      && (!Truthy(DisplayName(ch)) ==> r.title == user)
      && (Truthy(Status(ch)) ==> r.status == Status(ch).value && r.suffix == Separator + r.status)
      && (!Truthy(Status(ch)) ==> r.status == "" && r.suffix == "")
  {
  }

  /** Every field falls back on its own: two channels that agree on one field agree on that part of the row. */
  lemma FieldsIndependent(user: string, c1: Channel, c2: Channel, st: Option<StreamInfo>)
    ensures var r1, r2 := BuildRow(user, Some(c1), st), BuildRow(user, Some(c2), st);
      && (c1.url == c2.url ==> r1.link == r2.link)
      && (c1.logo == c2.logo ==> r1.logo == r2.logo)
      && (c1.displayName == c2.displayName ==> r1.title == r2.title)
      && (c1.status == c2.status ==> r1.status == r2.status && r1.suffix == r2.suffix)
  {
  }

  /** The details appear exactly for a live user; otherwise a status line appears exactly when the status is truthy. */
  lemma BodyShape(user: string, ch: Option<Channel>, st: Option<StreamInfo>)
    ensures var r := BuildRow(user, ch, st);
      && (r.body.Details? <==> IsLive(st))
      && (IsLive(st) ==>
            var s := st.value.stream.value;
            && r.body.game == (if Truthy(s.game) then s.game.value else "")
            && r.body.viewers == (if s.viewers.Some? then s.viewers.value else 0)
            && (r.body.preview.Some? <==> s.preview.Some? && Truthy(s.preview.value.medium))
            && (r.body.preview.Some? ==> r.body.preview == s.preview.value.medium))
      && (!IsLive(st) ==>
            && (r.body.line.Some? <==> Truthy(Status(ch)))
            && (r.body.line.Some? ==> r.body.line.value == r.status))
  {
  }

  /** An empty string counts as absent: blanking every falsy field of a channel leaves its row unchanged. */
  lemma FalsyIsAbsent(user: string, c: Channel, st: Option<StreamInfo>)
    ensures var blank := (o: Option<string>) => if Truthy(o) then o else None;
      BuildRow(user, Some(c), st) ==
      BuildRow(user, Some(Channel(blank(c.url), blank(c.logo), blank(c.displayName),
                                  blank(c.status), blank(c.error))), st)
  {
  }

  /** A channel that reports nothing renders exactly like a failed fetch. */
  lemma EmptyChannelIsNull(user: string, c: Channel, st: Option<StreamInfo>)
    requires !Truthy(c.url) && !Truthy(c.logo) && !Truthy(c.displayName)
    requires !Truthy(c.status) && !Truthy(c.error)
    ensures BuildRow(user, Some(c), st) == BuildRow(user, None, st)
  {
  }

  /** A user whose fetch failed shows its own name, the placeholder logo, OFFLINE and nothing more. */
  lemma NullRow(user: string)
    ensures BuildRow(user, None, None) ==
      Row(ProfileUrl(user), PlaceholderLogo, user, "", "", Offline, Description(None))
  {
  }

  /** A live user with a display name, a status, a game, viewers and a preview. */
  lemma LiveScenario()
    ensures var ch := Channel(None, None, Some("Y Team"), Some("Live now"), None);
      var st := StreamInfo(Some(Live(Some("Chess"), Some(42), Some(Preview(Some("url"))))));
      BuildRow("Y", Some(ch), Some(st)) ==
        Row(ProfileUrl("Y"), PlaceholderLogo, "Y Team", "Live now", Separator + "Live now",
            Online, Details("Chess", 42, Some("url")))
  {
  }
}
