/** The general cog (cogs/general.py): the allow-list of user ids read from the environment,
    the `/badge` command and its autocompletion, and `/github-issue`. Environment variables
    and HTTP replies are inputs; each command returns the requests it sent and its reply. */
module General {
  import opened Wrappers
  import opened Http
  import opened Platform
  import Text
  import Decimal

  // ---------------------------------------------------------------- allow-list

  /** `allowed_user_ids`: the comma-separated entries of ALLOWED_USER_IDS (unset reads as
      the empty string) that are digit strings once stripped, read as integers. */
  function AllowedUserIds(raw: Option<string>): (ids: set<Id>)
    ensures raw.None? || raw == Some("") ==> ids == {}
  {
    IdsIn(Text.Split(raw.GetOr(""), ','))
  }

  /** `int(uid.strip())` for an entry whose stripped form is a digit string, else nothing. */
  function EntryId(p: string): Option<Id> {
    var t := Text.Strip(p);
    if Decimal.IsDigits(t) then Some(Decimal.Value(t)) else None
  }

  /** The ids read from the entries that are digit strings once stripped. */
  function IdsIn(pieces: seq<string>): set<Id> {
    set p | p in pieces && EntryId(p).Some? :: EntryId(p).value
  }

  /** An allow-list as an operator writes it: each id in decimal, padded by white space. */
  function Entries(ids: seq<Id>, lefts: seq<string>, rights: seq<string>): (entries: seq<string>)
    requires |lefts| == |ids| && |rights| == |ids|
    ensures |entries| == |ids|
  {
    seq(|ids|, k requires 0 <= k < |ids| => lefts[k] + Decimal.Show(ids[k]) + rights[k])
  }

  /** A decimal numeral begins and ends with a digit, which is not white space. */
  lemma ShowIsTrimmed(n: Id)
    ensures var s := Decimal.Show(n);
      s != [] && !Text.IsSpace(s[0]) && !Text.IsSpace(s[|s| - 1])
  {
    var s := Decimal.Show(n);
    assert Decimal.IsDigit(s[0]) && Decimal.IsDigit(s[|s| - 1]);
  }

  /** Neither white space nor digits include the comma. */
  lemma NoCommaInEntry(left: string, n: Id, right: string)
    requires Text.AllSpace(left) && Text.AllSpace(right)
    ensures ',' !in left + Decimal.Show(n) + right
  {
    var s := Decimal.Show(n);
    assert Decimal.IsDigits(s);
    var e := left + s + right;
    forall i | 0 <= i < |e|
      ensures e[i] != ','
    {
      if i < |left| {
        assert e[i] == left[i];
      } else if i < |left| + |s| {
        assert e[i] == s[i - |left|];
      } else {
        assert e[i] == right[i - |left| - |s|];
      }
    }
  }

  lemma EntryStrips(left: string, n: Id, right: string)
    requires Text.AllSpace(left) && Text.AllSpace(right)
    ensures Text.Strip(left + Decimal.Show(n) + right) == Decimal.Show(n)
    ensures ',' !in left + Decimal.Show(n) + right
  {
    ShowIsTrimmed(n);
    Text.StripPadded(left, Decimal.Show(n), right);
    NoCommaInEntry(left, n, right);
  }

  /** One padded decimal entry reads back as its id. */
  lemma EntryIdOfPadded(left: string, n: Id, right: string)
    requires Text.AllSpace(left) && Text.AllSpace(right)
    ensures EntryId(left + Decimal.Show(n) + right) == Some(n)
  {
    EntryStrips(left, n, right);
    Decimal.ValueOfShow(n);
  }

  /** Pieces that each read back as one id give exactly the set of those ids. */
  lemma IdsInExactly(pieces: seq<string>, ids: seq<Id>)
    requires |pieces| == |ids|
    requires forall k :: 0 <= k < |ids| ==> EntryId(pieces[k]) == Some(ids[k])
    ensures IdsIn(pieces) == set k | 0 <= k < |ids| :: ids[k]
  {
    var got := IdsIn(pieces);
    forall x | x in got
      ensures exists k :: 0 <= k < |ids| && x == ids[k]
    {
      var p :| p in pieces && EntryId(p).Some? && x == EntryId(p).value;
      var k :| 0 <= k < |pieces| && pieces[k] == p;
    }
    forall k | 0 <= k < |ids|
      ensures ids[k] in got
    {
      assert pieces[k] in pieces;
    }
  }

  /** Padded decimal entries read back as exactly their ids. */
  lemma IdsInEntries(ids: seq<Id>, lefts: seq<string>, rights: seq<string>)
    requires |lefts| == |ids| && |rights| == |ids|
    requires forall k :: 0 <= k < |ids| ==> Text.AllSpace(lefts[k]) && Text.AllSpace(rights[k])
    ensures IdsIn(Entries(ids, lefts, rights)) == set k | 0 <= k < |ids| :: ids[k]
  {
    var pieces := Entries(ids, lefts, rights);
    forall k | 0 <= k < |ids|
      ensures EntryId(pieces[k]) == Some(ids[k])
    {
      assert pieces[k] == lefts[k] + Decimal.Show(ids[k]) + rights[k];
      EntryIdOfPadded(lefts[k], ids[k], rights[k]);
    }
    IdsInExactly(pieces, ids);
  }

  /** Reading an allow-list written as padded decimal entries gives back exactly its ids. */
  lemma {:induction false} AllowedUserIdsRoundTrip(ids: seq<Id>, lefts: seq<string>, rights: seq<string>)
    requires |ids| > 0 && |lefts| == |ids| && |rights| == |ids|
    requires forall k :: 0 <= k < |ids| ==> Text.AllSpace(lefts[k]) && Text.AllSpace(rights[k])
    ensures AllowedUserIds(Some(Text.Join(Entries(ids, lefts, rights), ','))) == set k | 0 <= k < |ids| :: ids[k]
  {
    var pieces := Entries(ids, lefts, rights);
    forall k | 0 <= k < |ids|
      ensures ',' !in pieces[k]
    {
      EntryStrips(lefts[k], ids[k], rights[k]);
    }
    Text.SplitJoin(pieces, ',');
    IdsInEntries(ids, lefts, rights);
  }

  /** An entry that is not a digit string once stripped (a name, a negative number, an empty
      entry) is skipped without affecting the others. */
  lemma {:induction false} AllowedUserIdsSkipsJunk(a: string, junk: string, b: string)
    requires ',' !in junk && !Decimal.IsDigits(Text.Strip(junk))
    ensures AllowedUserIds(Some(a + "," + junk + "," + b)) == AllowedUserIds(Some(a + "," + b))
  {
    SplitAroundEntry(a, junk, b);
    Text.SplitAppend(a, b, ',');
    assert EntryId(junk).None?;
    IdsInSkips(Text.Split(a, ','), junk, Text.Split(b, ','));
  }

  lemma {:induction false} SplitAroundEntry(a: string, entry: string, b: string)
    requires ',' !in entry
    ensures Text.Split(a + "," + entry + "," + b, ',') == Text.Split(a, ',') + [entry] + Text.Split(b, ',')
  {
    assert a + "," + entry + "," + b == a + [','] + (entry + [','] + b);
    Text.SplitAppend(a, entry + [','] + b, ',');
    Text.SplitAppend(entry, b, ',');
    Text.SplitWithoutSeparator(entry, ',');
  }

  lemma IdsInSkips(x: seq<string>, junk: string, y: seq<string>)
    requires EntryId(junk).None?
    ensures IdsIn(x + [junk] + y) == IdsIn(x + y)
  {
    var with := x + [junk] + y;
    var without := x + y;
    forall v | v in IdsIn(with)
      ensures v in IdsIn(without)
    {
      var p :| p in with && EntryId(p).Some? && v == EntryId(p).value;
      assert p in without;
    }
    forall v | v in IdsIn(without)
      ensures v in IdsIn(with)
    {
      var p :| p in without && EntryId(p).Some? && v == EntryId(p).value;
      assert p in with;
    }
  }

  // ---------------------------------------------------------------- /badge

  /** The JSON body of the authentication reply: `.get` works only on an object. */
  datatype AuthBody = AuthNotAnObject | AuthObject(sessionKey: Option<string>)

  datatype BadgeRequest =
    | Authenticate(username: string, password: string)
    | AddBadge(sessionKey: string, badge: string, user: string, give: bool)

  datatype BadgeReply =
    | NotAuthorized
    | MissingCredentials
    | NoSessionKey
    | BadgeDone(given: bool, user: string, badge: string)   // "given" or "removed"
    | Unauthorized
    | BadgeOrUserNotFound(badge: string, user: string)
    | BadgeFailed(status: int, text: string)
    | HttpStatusError(status: int, text: string)
    | RequestFailed
    | Unexpected

  datatype BadgeRun = BadgeRun(requests: seq<BadgeRequest>, reply: BadgeReply)

  /** The outcome of the add-badge request by its status code; `raise_for_status` is not
      called on it, so every status maps to a reply here. */
  function AddBadgeReply(status: int, text: string, user: string, badgeName: string, give: bool): (reply: BadgeReply)
    ensures reply.BadgeDone? <==> status == 200
    ensures reply == Unauthorized <==> status == 401 || status == 403
    ensures reply.BadgeOrUserNotFound? <==> status == NotFound
    ensures reply.BadgeFailed? <==> status !in {200, 401, 403, NotFound}
    ensures reply.BadgeFailed? ==> reply == BadgeFailed(status, text)
    ensures reply.BadgeDone? ==> reply == BadgeDone(give, user, badgeName)
  {
    if status == 200 then BadgeDone(give, user, badgeName)
    else if status == 401 || status == 403 then Unauthorized
    else if status == NotFound then BadgeOrUserNotFound(badgeName, user)
    else BadgeFailed(status, text)
  }

  /** `/badge`. Only allow-listed users get past the first check; credentials must be
      non-empty; the authentication reply must be a success carrying a non-empty session
      key before the add-badge request is sent. */
  function Badge(allowed: set<Id>, invoker: Id, user: string, badgeName: string, give: bool,
                 username: Option<string>, password: Option<string>,
                 auth: Response<AuthBody>, add: Response<()>): BadgeRun
  {
    if invoker !in allowed then BadgeRun([], NotAuthorized)
    else if !Truthy(username) || !Truthy(password) then BadgeRun([], MissingCredentials)
    else
      var login := [Authenticate(username.value, password.value)];
      match auth
      case NetworkError => BadgeRun(login, RequestFailed)
      case Replied(status, text, body) =>
        if !IsSuccess(status) then BadgeRun(login, HttpStatusError(status, text))
        else if body.AuthNotAnObject? then BadgeRun(login, Unexpected)
        else if !Truthy(body.sessionKey) then BadgeRun(login, NoSessionKey)
        else
          var sent := login + [AddBadge(body.sessionKey.value, badgeName, user, give)];
          match add
          case NetworkError => BadgeRun(sent, RequestFailed)
          case Replied(s, t, _) => BadgeRun(sent, AddBadgeReply(s, t, user, badgeName, give))
  }

  /** Nobody outside the allow-list makes the bot send a request, and an allow-listed user
      with an unset or empty `Username` or `Password` gets the missing-credentials reply
      before any request is sent. */
  lemma BadgeRequiresAllowList(allowed: set<Id>, invoker: Id, user: string, badgeName: string, give: bool,
                               username: Option<string>, password: Option<string>,
                               auth: Response<AuthBody>, add: Response<()>)
    ensures var run := Badge(allowed, invoker, user, badgeName, give, username, password, auth, add);
      && (run.reply == NotAuthorized <==> invoker !in allowed)
      && (invoker !in allowed ==> run.requests == [])
      && (run.reply == MissingCredentials <==> invoker in allowed && (!Truthy(username) || !Truthy(password)))
      && (run.reply == MissingCredentials ==> run.requests == [])
  {
  }

  /** The badge is changed only with a fresh session key: the add-badge request is sent
      exactly when an allow-listed user invokes the command, credentials are set, and the
      login succeeds with a non-empty key; it is then the second request, after the login,
      and carries that key and the command's arguments. */
  lemma AddBadgeNeedsSessionKey(allowed: set<Id>, invoker: Id, user: string, badgeName: string, give: bool,
                                username: Option<string>, password: Option<string>,
                                auth: Response<AuthBody>, add: Response<()>)
    ensures var run := Badge(allowed, invoker, user, badgeName, give, username, password, auth, add);
      var loggedIn := invoker in allowed && Truthy(username) && Truthy(password) &&
        auth.Replied? && IsSuccess(auth.status) && auth.json.AuthObject? && Truthy(auth.json.sessionKey);
      && (|run.requests| == 2 <==> loggedIn)
      && |run.requests| <= 2
      && (run.requests != [] ==> run.requests[0] == Authenticate(username.value, password.value))
      && (loggedIn ==> run.requests[1] == AddBadge(auth.json.sessionKey.value, badgeName, user, give))
  {
  }

  /** The command reports success exactly when the add-badge request was sent and answered
      with 200; an HTTP status error can only come from the login. */
  lemma BadgeDoneOnlyOn200(allowed: set<Id>, invoker: Id, user: string, badgeName: string, give: bool,
                           username: Option<string>, password: Option<string>,
                           auth: Response<AuthBody>, add: Response<()>)
    ensures var run := Badge(allowed, invoker, user, badgeName, give, username, password, auth, add);
      && (run.reply.BadgeDone? <==> |run.requests| == 2 && add.Replied? && add.status == 200)
      && (run.reply.BadgeDone? ==> run.reply == BadgeDone(give, user, badgeName))
      && (run.reply.HttpStatusError? ==> |run.requests| == 1 && auth.Replied? && !IsSuccess(auth.status))
  {
  }

  /** Every reply of `/badge` past the credential check: the login's transport failure, error
      status, non-object body or missing key, then the add-badge request's transport failure
      or its status mapped by `AddBadgeReply`. */
  lemma BadgeReplies(allowed: set<Id>, invoker: Id, user: string, badgeName: string, give: bool,
                     username: Option<string>, password: Option<string>,
                     auth: Response<AuthBody>, add: Response<()>)
    requires invoker in allowed && Truthy(username) && Truthy(password)
    ensures var run := Badge(allowed, invoker, user, badgeName, give, username, password, auth, add);
      && (auth.NetworkError? ==> run.reply == RequestFailed)
      && (auth.Replied? && !IsSuccess(auth.status) ==> run.reply == HttpStatusError(auth.status, auth.text))
      && (auth.Replied? && IsSuccess(auth.status) && auth.json.AuthNotAnObject? ==> run.reply == Unexpected)
      && (auth.Replied? && IsSuccess(auth.status) && auth.json.AuthObject? && !Truthy(auth.json.sessionKey) ==>
            run.reply == NoSessionKey)
    ensures var run := Badge(allowed, invoker, user, badgeName, give, username, password, auth, add);
      var loggedIn := auth.Replied? && IsSuccess(auth.status) && auth.json.AuthObject? && Truthy(auth.json.sessionKey);
      && (loggedIn && add.NetworkError? ==> run.reply == RequestFailed)
      && (loggedIn && add.Replied? ==> run.reply == AddBadgeReply(add.status, add.text, user, badgeName, give))
  {
  }

  // ---------------------------------------------------------------- autocompletion

  datatype Choice = Choice(name: string, value: string)

  /** The single choice shown after a failed fetch. */
  const ErrorChoice := Choice("Error loading badges", "Error")

  /** One entry of the `badges` list; `b["badge_name"]` raises when the key is missing. */
  datatype BadgeEntry = BadgeEntry(badgeName: Option<string>)

  /** The listing's JSON body; `badges` is `None` when the key is absent, read as `[]`. */
  datatype BadgeListing = ListingNotAnObject | Listing(badges: Option<seq<BadgeEntry>>)

  /** One choice per entry, named and valued by the badge name, or `None` when an entry has
      no name. */
  function ChoicesOf(entries: seq<BadgeEntry>): (r: Option<seq<Choice>>)
    ensures r.None? <==> exists i :: 0 <= i < |entries| && entries[i].badgeName.None?
    ensures r.Some? ==> |r.value| == |entries|
    ensures r.Some? ==> forall i :: 0 <= i < |entries| ==>
      r.value[i] == Choice(entries[i].badgeName.value, entries[i].badgeName.value)
  {
    if entries == [] then Some([])
    else
      var rest := ChoicesOf(entries[1..]);
      if entries[0].badgeName.None? then None
      else if rest.None? then
        assert exists i :: 0 <= i < |entries| - 1 && entries[1..][i].badgeName.None?;
        None
      else
        var n := entries[0].badgeName.value;
        Some([Choice(n, n)] + rest.value)
  }

  /** `fetch_badges`: the new value of `badge_choices`. Any failure (transport, non-2xx
      status, a body that is not an object, an entry without a name) gives `[ErrorChoice]`. */
  function BadgeChoices(resp: Response<BadgeListing>): seq<Choice> {
    match resp
    case NetworkError => [ErrorChoice]
    case Replied(status, _, body) =>
      if !IsSuccess(status) || body.ListingNotAnObject? then [ErrorChoice]
      else
        match ChoicesOf(body.badges.GetOr([]))
        case None => [ErrorChoice]
        case Some(choices) => choices
  }

  /** A fetch leaves `badge_choices` empty only when it succeeded with an empty (or absent)
      list, so a failed fetch is not repeated by the autocompletion. Every failure (transport,
      a non-2xx status, a body that is not an object, an entry without a name) gives exactly
      the error choice. */
  lemma EmptyChoicesOnlyFromEmptyListing(resp: Response<BadgeListing>)
    ensures BadgeChoices(resp) == [] <==>
      resp.Replied? && IsSuccess(resp.status) && resp.json.Listing? && resp.json.badges.GetOr([]) == []
    ensures var failed := resp.NetworkError? || !IsSuccess(resp.status) || resp.json.ListingNotAnObject? ||
        ChoicesOf(resp.json.badges.GetOr([])).None?;
      failed ==> BadgeChoices(resp) == [ErrorChoice]
    ensures resp.Replied? && IsSuccess(resp.status) && resp.json.Listing? ==>
      match ChoicesOf(resp.json.badges.GetOr([]))
      case None => BadgeChoices(resp) == [ErrorChoice]
      case Some(choices) => BadgeChoices(resp) == choices
  {
  }

  /** A successful listing becomes one choice per badge, in listing order. */
  lemma ListingBecomesChoices(resp: Response<BadgeListing>, names: seq<string>)
    requires resp.Replied? && IsSuccess(resp.status)
    requires resp.json == Listing(Some(seq(|names|, i requires 0 <= i < |names| => BadgeEntry(Some(names[i])))))
    ensures |BadgeChoices(resp)| == |names|
    ensures forall i :: 0 <= i < |names| ==> BadgeChoices(resp)[i] == Choice(names[i], names[i])
  {
    var entries := resp.json.badges.value;
    assert forall i :: 0 <= i < |entries| ==> entries[i].badgeName.Some?;
  }

  /** Case-insensitive `current in choice.name`. */
  predicate Matches(choice: Choice, current: string) {
    Text.Contains(Text.Lower(choice.name), Text.Lower(current))
  }

  /** The choices whose name contains `current`, ignoring case, in their original order. */
  function Matching(choices: seq<Choice>, current: string): (r: seq<Choice>)
    ensures |r| <= |choices|
    ensures forall i :: 0 <= i < |r| ==> Matches(r[i], current) && r[i] in choices
    ensures forall c :: c in choices && Matches(c, current) ==> c in r
  {
    if choices == [] then []
    else (if Matches(choices[0], current) then [choices[0]] else []) + Matching(choices[1..], current)
  }

  /** Filtering distributes over concatenation, so the order of the choices is kept. */
  lemma {:induction false} MatchingAppend(a: seq<Choice>, b: seq<Choice>, current: string)
    ensures Matching(a + b, current) == Matching(a, current) + Matching(b, current)
  {
    if a == [] {
      assert a + b == b;
    } else {
      assert (a + b)[0] == a[0];
      assert (a + b)[1..] == a[1..] + b;
      MatchingAppend(a[1..], b, current);
    }
  }

  /** Discord's limit on the number of autocompletion choices. */
  const MaxChoices := 25

  /** `badge_autocomplete`'s answer: the first 25 matching choices. */
  function Autocomplete(choices: seq<Choice>, current: string): (shown: seq<Choice>)
    ensures |shown| <= MaxChoices
    ensures shown <= Matching(choices, current)
    ensures |shown| < MaxChoices ==> shown == Matching(choices, current)
  {
    var m := Matching(choices, current);
    if |m| <= MaxChoices then m else m[..MaxChoices]
  }

  /** The empty query matches every choice. */
  lemma {:induction false} EmptyQueryMatchesAll(choices: seq<Choice>)
    ensures Matching(choices, "") == choices
  {
    if choices != [] {
      assert Text.Lower("") == "";
      assert Text.OccursAt(Text.Lower(choices[0].name), "", 0);
      EmptyQueryMatchesAll(choices[1..]);
    }
  }

  class GeneralCog {
    const allowedUserIds: set<Id>
    var badgeChoices: seq<Choice>

    /** `__init__`: no choices yet, the allow-list read from ALLOWED_USER_IDS. */
    constructor (rawAllowed: Option<string>)
      ensures allowedUserIds == AllowedUserIds(rawAllowed)
      ensures badgeChoices == []
    {
      allowedUserIds := AllowedUserIds(rawAllowed);
      badgeChoices := [];
    }

    /** `fetch_badges`, given the listing request's outcome. */
    method FetchBadges(resp: Response<BadgeListing>)
      modifies this
      ensures badgeChoices == BadgeChoices(resp)
    {
      badgeChoices := BadgeChoices(resp);
    }

    /** `badge_autocomplete`: fetches only while there are no choices yet, then filters. */
    method BadgeAutocomplete(current: string, resp: Response<BadgeListing>) returns (shown: seq<Choice>, fetched: bool)
      modifies this
      ensures fetched <==> old(badgeChoices) == []
      ensures badgeChoices == (if fetched then BadgeChoices(resp) else old(badgeChoices))
      ensures shown == Autocomplete(badgeChoices, current)
    {
      fetched := badgeChoices == [];
      if fetched {
        FetchBadges(resp);
      }
      shown := Autocomplete(badgeChoices, current);
    }
  }

  /** The extension's `setup`: build the cog and fetch the badges once at start-up. */
  method SetupGeneral(rawAllowed: Option<string>, startup: Response<BadgeListing>) returns (cog: GeneralCog)
    ensures fresh(cog)
    ensures cog.allowedUserIds == AllowedUserIds(rawAllowed)
    ensures cog.badgeChoices == BadgeChoices(startup)
  {
    cog := new GeneralCog(rawAllowed);
    cog.FetchBadges(startup);
  }

  // ---------------------------------------------------------------- /github-issue

  /** The JSON body of a 201 reply; indexing `html_url` raises unless it is an object
      holding that key. */
  datatype IssueBody = IssueNotAnObject | IssueObject(htmlUrl: Option<string>)

  /** The POST to the repository's issues endpoint. */
  datatype IssueRequest = IssueRequest(title: string, body: string, authorization: string)

  datatype IssueReply =
    | IssueNotAuthorized
    | MissingToken
    | IssueCreated(url: string)
    | BadToken
    | IssueFailed(status: int, text: string)
    | IssueRequestFailed
    | IssueUnexpected

  datatype IssueRun = IssueRun(request: Option<IssueRequest>, reply: IssueReply)

  const IssuesUrl := "https://api.github.com/repos/NestStopLabs/MyBusTimes/issues"

  /** The issue body: the user's text followed by a blank line and an attribution line. */
  function IssueText(body: string, invoker: User): (text: string)
    ensures Text.StartsWith(text, body)
    ensures |text| == |body| + 17 + |invoker.name| + 14
    ensures text[|body| + 17..|text| - 14] == invoker.name
    ensures text[|body|..|body| + 17] == "\n\n— Created by **"
    ensures text[|text| - 14..] == "** via Discord"
  {
    body + "\n\n— Created by **" + invoker.name + "** via Discord"
  }

  /** `/github-issue`: allow-listed users only, a non-empty token is required, and a 201 reply
      must carry the new issue's `html_url`. */
  function GithubIssue(allowed: set<Id>, invoker: User, title: string, body: string,
                       token: Option<string>, resp: Response<IssueBody>): IssueRun
  {
    if invoker.id !in allowed then IssueRun(None, IssueNotAuthorized)
    else if !Truthy(token) then IssueRun(None, MissingToken)
    else
      var request := IssueRequest(title, IssueText(body, invoker), "token " + token.value);
      match resp
      case NetworkError => IssueRun(Some(request), IssueRequestFailed)
      case Replied(status, text, json) =>
        if status == 201 then
          if json.IssueObject? && json.htmlUrl.Some? then IssueRun(Some(request), IssueCreated(json.htmlUrl.value))
          else IssueRun(Some(request), IssueUnexpected)
        else if status == 401 then IssueRun(Some(request), BadToken)
        else IssueRun(Some(request), IssueFailed(status, text))
  }

  /** The issue request is sent exactly for an allow-listed user with a token, and carries the
      title unchanged, the body as a prefix of the issue text and the token in the header. */
  lemma IssueRequestShape(allowed: set<Id>, invoker: User, title: string, body: string,
                          token: Option<string>, resp: Response<IssueBody>)
    ensures var run := GithubIssue(allowed, invoker, title, body, token, resp);
      && (run.request.Some? <==> invoker.id in allowed && Truthy(token))
      && (run.request.Some? ==>
            && run.request.value.title == title
            && Text.StartsWith(run.request.value.body, body)
            && run.request.value.body == IssueText(body, invoker)
            && run.request.value.authorization == "token " + token.value)
  {
  }

  /** The command reports a created issue exactly on a 201 reply holding the issue's URL, and
      that URL is what it shows; a 201 without it is an unexpected error, 401 a bad token, any
      other status a failure showing that status and the reply's text, and a transport error a
      failed request. */
  lemma IssueCreatedOnlyOn201(allowed: set<Id>, invoker: User, title: string, body: string,
                              token: Option<string>, resp: Response<IssueBody>)
    ensures var run := GithubIssue(allowed, invoker, title, body, token, resp);
      && (run.reply.IssueCreated? <==>
            run.request.Some? && resp.Replied? && resp.status == 201 &&
            resp.json.IssueObject? && resp.json.htmlUrl.Some?)
      && (run.reply.IssueCreated? ==> run.reply.url == resp.json.htmlUrl.value)
      && (run.reply == BadToken <==> run.request.Some? && resp.Replied? && resp.status == 401)
      && (run.reply.IssueFailed? <==> run.request.Some? && resp.Replied? && resp.status !in {201, 401})
      && (run.reply.IssueFailed? ==> run.reply == IssueFailed(resp.status, resp.text))
      && (run.reply == IssueUnexpected <==>
            run.request.Some? && resp.Replied? && resp.status == 201 &&
            !(resp.json.IssueObject? && resp.json.htmlUrl.Some?))
      && (run.reply == IssueRequestFailed <==> run.request.Some? && resp.NetworkError?)
  {
  }
}
