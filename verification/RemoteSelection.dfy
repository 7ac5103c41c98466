/**
  Which Scope remote a command uses: parsing a remote's address, printing it for a view, and choosing among
  the remotes of a checkout from `--remote`, `--repo`, the current branch and the configured addresses.
  URLs are parsed values; the text of a path is kept because it carries the view, owner and repository.
 */
module RemoteSelection {
  import opened Wrappers
  import opened Texts

  datatype Url = Url(
    scheme: string,
    host: string,
    port: Option<nat>,
    username: string,
    password: Option<string>,
    path: string,
    query: Option<string>,
    fragment: Option<string>)

  function KnownPort(scheme: string): Option<nat> {
    if scheme == "http" || scheme == "ws" then Some(80)
    else if scheme == "https" || scheme == "wss" then Some(443)
    else if scheme == "ftp" then Some(21)
    else None
  }

  function PortOrKnownDefault(u: Url): Option<nat> {
    if u.port.Some? then u.port else KnownPort(u.scheme)
  }

  /** A parsed URL never spells out the known port of its scheme. */
  predicate Normal(u: Url) {
    u.port.Some? ==> u.port != KnownPort(u.scheme)
  }

  predicate IsSpace(c: char) {
    || '\t' <= c <= '\r' || c == ' ' || c == '\U{85}' || c == '\U{a0}' || c == '\U{1680}'
    || '\U{2000}' <= c <= '\U{200a}' || c == '\U{2028}' || c == '\U{2029}' || c == '\U{202f}'
    || c == '\U{205f}' || c == '\U{3000}'
  }

  function TrimStart(s: string): string {
    if s != [] && IsSpace(s[0]) then TrimStart(s[1..]) else s
  }

  function TrimEnd(s: string): string {
    if s != [] && IsSpace(s[|s| - 1]) then TrimEnd(s[..|s| - 1]) else s
  }

  function Trim(s: string): string {
    TrimEnd(TrimStart(s))
  }

  /** No blank at either end. */
  predicate Trimmed(s: string) {
    s == [] || (!IsSpace(s[0]) && !IsSpace(s[|s| - 1]))
  }

  lemma {:induction false} TrimEndKeeps(s: string)
    requires s == [] || !IsSpace(s[0])
    ensures Trimmed(TrimEnd(s)) && TrimEnd(s) <= s
  {
    if s != [] && IsSpace(s[|s| - 1]) {
      TrimEndKeeps(s[..|s| - 1]);
    }
  }

  lemma {:induction false} TrimStartKeeps(s: string)
    ensures TrimStart(s) == [] || !IsSpace(TrimStart(s)[0])
    ensures forall c :: c in TrimStart(s) ==> c in s
  {
    if s != [] && IsSpace(s[0]) {
      TrimStartKeeps(s[1..]);
    }
  }

  lemma TrimKeeps(s: string)
    ensures Trimmed(Trim(s)) && (forall c :: c in Trim(s) ==> c in s)
    ensures Trimmed(s) ==> Trim(s) == s
  {
    TrimStartKeeps(s);
    TrimEndKeeps(TrimStart(s));
  }

  function PathSegments(u: Url): seq<string> {
    if u.path != [] && u.path[0] == '/' then Split(u.path[1..], '/') else []
  }

  predicate IsLower(c: char) {
    'a' <= c <= 'z'
  }

  /** `[a-z][a-z0-9_-]{0,31}` */
  predicate IsViewId(s: string) {
    && 0 < |s| <= 32 && IsLower(s[0])
    && forall i :: 0 <= i < |s| ==> IsLower(s[i]) || '0' <= s[i] <= '9' || s[i] == '_' || s[i] == '-'
  }

  const PRIVATE: string := "private"

  datatype ScopeRemote = ScopeRemote(remote: string, view: string, owner: string, repo: string, origin: Url)
  {
    function UrlForView(v: string): Url {
      origin.(path := "/git/" + v + "/" + owner + "/" + repo)
    }

    function Address(): Url {
      UrlForView(view)
    }
  }

  function OriginOf(u: Url): Url {
    u.(username := "", path := "", query := None, fragment := None)
  }

  /** `ScopeRemote::parse_at_own_origin`; `None` is an error. */
  function ParseAtOwnOrigin(name: string, u: Url): Option<ScopeRemote> {
    var segments := PathSegments(u);
    if u.password.Some? || |segments| != 4 || segments[0] != "git" || !IsViewId(segments[1]) then None
    else
      var owner, repo := Trim(segments[2]), Trim(segments[3]);
      if owner == "" || repo == "" then None
      else Some(ScopeRemote(name, segments[1], owner, repo, OriginOf(u)))
  }

  /** `ScopeRemote::parse`. */
  function ParseRemote(api: Url, name: string, u: Url): Option<ScopeRemote> {
    if api.scheme != u.scheme || api.host != u.host || PortOrKnownDefault(api) != PortOrKnownDefault(u) then None
    else ParseAtOwnOrigin(name, u)
  }

  // ----- Printing and parsing

  lemma PrintedSegments(v: string, owner: string, repo: string, u: Url)
    requires '/' !in v && '/' !in owner && '/' !in repo
    requires u.path == "/git/" + v + "/" + owner + "/" + repo
    ensures PathSegments(u) == ["git", v, owner, repo]
  {
    var third := owner + "/" + repo;
    var second := v + "/" + third;
    assert u.path[1..] == "git" + "/" + second;
    SplitAfterPiece("git", second, '/');
    SplitAfterPiece(v, third, '/');
    SplitAfterPiece(owner, repo, '/');
    SplitOnePiece(repo, '/');
  }

  /** Parsing a printed remote gives it back, for every view it is printed for. */
  lemma ParsePrinted(name: string, u: Url, v: string)
    requires ParseAtOwnOrigin(name, u).Some? && IsViewId(v)
    ensures var r := ParseAtOwnOrigin(name, u).value;
            ParseAtOwnOrigin(name, r.UrlForView(v)) == Some(r.(view := v))
  {
    var r := ParseAtOwnOrigin(name, u).value;
    var segments := PathSegments(u);
    TrimKeeps(segments[2]);
    TrimKeeps(segments[3]);
    TrimKeeps(r.owner);
    TrimKeeps(r.repo);
    PrintedSegments(v, r.owner, r.repo, r.UrlForView(v));
  }

  /** An address that spells a view, an owner and a repository under `/git/`. */
  predicate Spells(u: Url, view: string, owner: string, repo: string) {
    && u.path == "/git/" + view + "/" + owner + "/" + repo
    && '/' !in view && '/' !in owner && '/' !in repo
  }

  lemma SpellsIff(u: Url, view: string, owner: string, repo: string)
    ensures Spells(u, view, owner, repo) <==> PathSegments(u) == ["git", view, owner, repo]
  {
    if Spells(u, view, owner, repo) {
      PrintedSegments(view, owner, repo, u);
    }
    if PathSegments(u) == ["git", view, owner, repo] {
      var pieces := ["git", view, owner, repo];
      assert pieces == Split(u.path[1..], '/');
      assert '/' !in pieces[1] && '/' !in pieces[2] && '/' !in pieces[3];
      SplitJoins(u.path[1..], '/');
      FourJoined(view, owner, repo);
      assert u.path == "/" + u.path[1..];
    }
  }

  lemma FourJoined(view: string, owner: string, repo: string)
    ensures "/" + Joined(["git", view, owner, repo], '/') == "/git/" + view + "/" + owner + "/" + repo
  {
    var pieces := ["git", view, owner, repo];
    assert pieces[1..] == [view, owner, repo] && pieces[1..][1..] == [owner, repo] && [owner, repo][1..] == [repo];
    assert Joined([owner, repo], '/') == owner + "/" + repo;
    assert Joined(pieces[1..], '/') == view + "/" + (owner + "/" + repo);
    assert Joined(pieces, '/') == "git" + "/" + (view + "/" + (owner + "/" + repo));
  }

  predicate SameOrigin(api: Url, u: Url) {
    api.scheme == u.scheme && api.host == u.host && PortOrKnownDefault(api) == PortOrKnownDefault(u)
  }

  /** The path spells the remote's view and, around blanks, its owner and repository. */
  ghost predicate SpellsRemote(u: Url, r: ScopeRemote) {
    exists owner, repo :: Spells(u, r.view, owner, repo) && Trim(owner) == r.owner && Trim(repo) == r.repo
  }

  lemma SpelledSegments(u: Url, r: ScopeRemote)
    ensures SpellsRemote(u, r) <==>
            var segments := PathSegments(u);
            && |segments| == 4 && segments[0] == "git" && segments[1] == r.view
            && Trim(segments[2]) == r.owner && Trim(segments[3]) == r.repo
  {
    var segments := PathSegments(u);
    if SpellsRemote(u, r) {
      var owner, repo :| Spells(u, r.view, owner, repo) && Trim(owner) == r.owner && Trim(repo) == r.repo;
      SpellsIff(u, r.view, owner, repo);
    }
    if |segments| == 4 && segments[0] == "git" && segments[1] == r.view {
      assert segments == ["git", r.view, segments[2], segments[3]];
      SpellsIff(u, r.view, segments[2], segments[3]);
    }
  }

  /**
    Exactly which addresses are accepted for an API, and as what: the same origin, no password, and a path that
    spells a view and, around blanks, an owner and a repository.
   */
  lemma AcceptsIff(api: Url, name: string, u: Url, r: ScopeRemote)
    ensures ParseRemote(api, name, u) == Some(r) <==>
            && SameOrigin(api, u) && u.password.None? && SpellsRemote(u, r)
            && r.remote == name && r.origin == OriginOf(u)
            && IsViewId(r.view) && r.owner != "" && r.repo != ""
  {
    SpelledSegments(u, r);
  }

  /** Two addresses accepted for one API that name the same repository and view print alike. */
  lemma SameTargetSameAddress(api: Url, name: string, u: Url, name': string, u': Url)
    requires Normal(u) && Normal(u')
    requires ParseRemote(api, name, u).Some? && ParseRemote(api, name', u').Some?
    requires var r, r' := ParseRemote(api, name, u).value, ParseRemote(api, name', u').value;
             r.owner == r'.owner && r.repo == r'.repo && r.view == r'.view
    ensures ParseRemote(api, name, u).value.Address() == ParseRemote(api, name', u').value.Address()
  {
  }

  // ----- Choosing a remote

  datatype RemoteUrls = RemoteUrls(name: string, fetch: Option<Url>, push: Option<Url>)

  datatype Branch = Branch(requestRemote: Option<string>, remote: Option<string>)

  /** `origin` is the checkout's Scope Git origin; `None` if it is not a URL. */
  datatype Checkout = Checkout(
    storedApiConflicts: bool,
    origin: Option<Url>,
    branch: Option<Branch>,
    remotes: seq<RemoteUrls>)

  datatype Repo = Repo(owner: string, repo: string)

  datatype Error = Usage | BadRemote

  function Target(r: ScopeRemote): Repo {
    Repo(r.owner, r.repo)
  }

  function FirstNamed(remotes: seq<RemoteUrls>, name: string): Option<RemoteUrls> {
    if remotes == [] then None else if remotes[0].name == name then Some(remotes[0]) else FirstNamed(remotes[1..], name)
  }

  /** The parsed fetch or push address of a remote; `None` if it is missing or not a Scope address. */
  function AddressOf(c: Checkout, name: string, push: bool): Option<ScopeRemote> {
    match FirstNamed(c.remotes, name)
    case None => None
    case Some(urls) =>
      var u := if push then urls.push else urls.fetch;
      if u.None? || c.origin.None? then None else ParseRemote(c.origin.value, name, u.value)
  }

  /** The closure `load`. */
  function Load(c: Checkout, selected: Option<Repo>, name: string, validatePush: bool): Option<ScopeRemote> {
    var fetch := AddressOf(c, name, false);
    if fetch.None? then None
    else
      var push := if validatePush then AddressOf(c, name, true) else fetch;
      if push.None? || Target(push.value) != Target(fetch.value) || push.value.view != fetch.value.view then None
      else if selected.Some? && Target(push.value) != selected.value then None
      else push
  }

  function TargetForRepository(api: Url, repo: Repo): Option<ScopeRemote> {
    ParseRemote(api, "", OriginOf(api).(path := "/git/" + PRIVATE + "/" + repo.owner + "/" + repo.repo))
  }

  /** A repository can be reached at the API without any remote. */
  predicate CanTarget(api: Url, repo: Repo) {
    api.password.None? && repo.owner != "" && repo.repo != ""
  }

  /** The fetch and push addresses of the remote name one repository and view and print alike. */
  ghost predicate PushAgrees(c: Checkout, r: ScopeRemote) {
    var fetch, push := AddressOf(c, r.remote, false), AddressOf(c, r.remote, true);
    && fetch.Some? && push == Some(r)
    && fetch.value.owner == r.owner && fetch.value.repo == r.repo && fetch.value.view == r.view
    && fetch.value.Address() == r.Address()
  }

  /** Every remote with a Scope fetch address names this repository. */
  ghost predicate AllName(c: Checkout, selected: Option<Repo>, repo: Repo) {
    forall i :: 0 <= i < |c.remotes| && Load(c, selected, c.remotes[i].name, false).Some? ==>
      Target(Load(c, selected, c.remotes[i].name, false).value) == repo
  }

  /** Some remote of the checkout loads for this purpose. */
  ghost predicate SomeLoads(c: Checkout, selected: Option<Repo>, push: bool) {
    exists i :: 0 <= i < |c.remotes| && Load(c, selected, c.remotes[i].name, push).Some?
  }

  /** Without a remote named by argument or branch there is a choice to make, and only one repository to make it of. */
  ghost predicate HasChoice(c: Checkout, api: Url, selected: Option<Repo>, push: bool) {
    if !SomeLoads(c, selected, false) then !push && selected.Some? && CanTarget(api, selected.value)
    else SomeLoads(c, selected, push) && exists repo :: AllName(c, selected, repo)
  }

  /** The remote the branch decides for. */
  function BranchRemote(branch: Branch): string {
    if branch.requestRemote.Some? then branch.requestRemote.value
    else if branch.remote.Some? then branch.remote.value
    else ""
  }

  /** When `resolve` finds a remote. */
  ghost predicate Resolvable(checkout: Option<Checkout>, api: Url, remoteArg: Option<string>, selected: Option<Repo>,
                             push: bool)
  {
    match checkout
    case None => remoteArg.None? && selected.Some? && CanTarget(api, selected.value)
    case Some(c) =>
      && !c.storedApiConflicts
      && (if remoteArg.Some? then Load(c, selected, remoteArg.value, push).Some?
          else if BranchDecides(c, selected) then Load(c, selected, BranchRemote(c.branch.value), push).Some?
          else HasChoice(c, api, selected, push))
  }

  predicate NormalCheckout(c: Checkout) {
    forall i :: 0 <= i < |c.remotes| ==>
      && (c.remotes[i].fetch.Some? ==> Normal(c.remotes[i].fetch.value))
      && (c.remotes[i].push.Some? ==> Normal(c.remotes[i].push.value))
  }

  /** The i-th remote is the first of this name. */
  predicate IsFirstNamed(remotes: seq<RemoteUrls>, name: string, i: nat) {
    i < |remotes| && remotes[i].name == name && forall j :: 0 <= j < i ==> remotes[j].name != name
  }

  lemma {:induction false} FirstNamedIs(remotes: seq<RemoteUrls>, name: string)
    ensures if FirstNamed(remotes, name).Some?
            then exists i: nat :: IsFirstNamed(remotes, name, i) && remotes[i] == FirstNamed(remotes, name).value
            else forall i :: 0 <= i < |remotes| ==> remotes[i].name != name
  {
    if remotes != [] {
      if remotes[0].name == name {
        assert IsFirstNamed(remotes, name, 0);
      } else {
        FirstNamedIs(remotes[1..], name);
        if FirstNamed(remotes, name).Some? {
          var i: nat :| IsFirstNamed(remotes[1..], name, i) && remotes[1..][i] == FirstNamed(remotes, name).value;
          assert IsFirstNamed(remotes, name, i + 1);
        }
      }
    }
  }

  /** Exactly the address of a remote: that of the first of its name, accepted for the checkout's origin. */
  lemma AddressIff(c: Checkout, name: string, push: bool, r: ScopeRemote)
    ensures AddressOf(c, name, push) == Some(r) <==>
            && c.origin.Some?
            && exists i: nat, u ::
                 && IsFirstNamed(c.remotes, name, i)
                 && (if push then c.remotes[i].push else c.remotes[i].fetch) == Some(u)
                 && ParseRemote(c.origin.value, name, u) == Some(r)
  {
    FirstNamedIs(c.remotes, name);
  }

  /** What `load` promises. */
  lemma LoadAgrees(c: Checkout, selected: Option<Repo>, name: string, validatePush: bool)
    requires NormalCheckout(c) && Load(c, selected, name, validatePush).Some?
    ensures var r := Load(c, selected, name, validatePush).value;
            && r.remote == name
            && (selected.Some? ==> Target(r) == selected.value)
            && (validatePush ==> PushAgrees(c, r))
  {
    if validatePush {
      FirstNamedIs(c.remotes, name);
      var urls := FirstNamed(c.remotes, name).value;
      SameTargetSameAddress(c.origin.value, name, urls.fetch.value, name, urls.push.value);
    }
  }

  /** Exactly when a remote loads, and as what: its fetch address, or for a push the push address agreeing with it. */
  lemma LoadsIff(c: Checkout, selected: Option<Repo>, name: string, validatePush: bool, r: ScopeRemote)
    requires NormalCheckout(c)
    ensures Load(c, selected, name, validatePush) == Some(r) <==>
            && (selected.Some? ==> Target(r) == selected.value)
            && (if validatePush then r.remote == name && PushAgrees(c, r) else AddressOf(c, name, false) == Some(r))
  {
    if Load(c, selected, name, validatePush) == Some(r) {
      LoadAgrees(c, selected, name, validatePush);
    }
  }

  /** The branch decides when there is no `--repo` and it names a request remote or a Scope remote. */
  predicate BranchDecides(c: Checkout, selected: Option<Repo>) {
    && selected.None? && c.branch.Some?
    && (c.branch.value.requestRemote.Some?
        || (c.branch.value.remote.Some? && Load(c, selected, c.branch.value.remote.value, false).Some?))
  }

  function Rank(push: bool, r: ScopeRemote): nat {
    (if push && r.view != PRIVATE then 3 else 0)
    + (if r.remote == "scope" then 0 else if r.remote == "origin" then 1 else 2)
  }

  /** On push the private view comes before any other; then the remote `scope`, then `origin`, then the rest. */
  predicate ComesBefore(push: bool, r: ScopeRemote, other: ScopeRemote) {
    if push && (r.view == PRIVATE) != (other.view == PRIVATE) then r.view == PRIVATE
    else
      || (r.remote == "scope" && other.remote != "scope")
      || (r.remote == "origin" && other.remote != "scope" && other.remote != "origin")
  }

  lemma RankOrders(push: bool, r: ScopeRemote, other: ScopeRemote)
    ensures Rank(push, r) < Rank(push, other) <==> ComesBefore(push, r, other)
  {
  }

  /** No remote that loads for this purpose comes before r. */
  ghost predicate Preferred(c: Checkout, selected: Option<Repo>, push: bool, r: ScopeRemote) {
    forall i :: 0 <= i < |c.remotes| && Load(c, selected, c.remotes[i].name, push).Some? ==>
      !ComesBefore(push, Load(c, selected, c.remotes[i].name, push).value, r)
  }

  /** Stable sort by rank, then the first: the earliest of the least. */
  method EarliestLeast(push: bool, candidates: seq<ScopeRemote>) returns (r: ScopeRemote, at: nat)
    requires candidates != []
    ensures at < |candidates| && r == candidates[at]
    ensures forall i :: 0 <= i < |candidates| ==> !ComesBefore(push, candidates[i], r)
    ensures forall i :: 0 <= i < at ==> ComesBefore(push, r, candidates[i])
  {
    at := 0;
    for i := 1 to |candidates|
      invariant at < i
      invariant forall j :: 0 <= j < i ==> Rank(push, candidates[at]) <= Rank(push, candidates[j])
      invariant forall j :: 0 <= j < at ==> Rank(push, candidates[at]) < Rank(push, candidates[j])
    {
      if Rank(push, candidates[i]) < Rank(push, candidates[at]) {
        at := i;
      }
    }
    r := candidates[at];
    forall i | 0 <= i < |candidates| ensures !ComesBefore(push, candidates[i], r) {
      RankOrders(push, candidates[i], r);
    }
    forall i | 0 <= i < at ensures ComesBefore(push, r, candidates[i]) {
      RankOrders(push, r, candidates[i]);
    }
  }

  lemma LoadNames(c: Checkout, selected: Option<Repo>, name: string, validatePush: bool)
    requires Load(c, selected, name, validatePush).Some?
    ensures Load(c, selected, name, validatePush).value.remote == name
  {
  }

  /** The present values, in order. */
  method Present(options: seq<Option<ScopeRemote>>) returns (found: seq<ScopeRemote>)
    ensures forall r :: r in found <==> Some(r) in options
  {
    found := [];
    for i := 0 to |options|
      invariant forall r :: r in found <==> Some(r) in options[..i]
    {
      if options[i].Some? {
        found := found + [options[i].value];
      }
      assert options[..i + 1] == options[..i] + [options[i]];
    }
    assert options[..|options|] == options;
  }

  method LoadAll(c: Checkout, selected: Option<Repo>, names: seq<string>, validatePush: bool)
    returns (found: seq<ScopeRemote>)
    ensures forall r :: r in found ==> r.remote in names && Load(c, selected, r.remote, validatePush) == Some(r)
    ensures forall i :: 0 <= i < |names| && Load(c, selected, names[i], validatePush).Some? ==>
              Load(c, selected, names[i], validatePush).value in found
  {
    var options := seq(|names|, i requires 0 <= i < |names| => Load(c, selected, names[i], validatePush));
    found := Present(options);
    forall r | r in found ensures r.remote in names && Load(c, selected, r.remote, validatePush) == Some(r) {
      var i :| 0 <= i < |options| && options[i] == Some(r);
      LoadNames(c, selected, names[i], validatePush);
    }
    forall i | 0 <= i < |names| && Load(c, selected, names[i], validatePush).Some?
      ensures Load(c, selected, names[i], validatePush).value in found
    {
      assert options[i] in options;
    }
  }

  function Names(remotes: seq<RemoteUrls>): seq<string> {
    seq(|remotes|, i requires 0 <= i < |remotes| => remotes[i].name)
  }

  /**
    `resolve`. A result agrees with `--repo`; on push it is the push address of a remote whose two addresses
    agree; and when neither `--remote` nor the branch decides, all Scope remotes of the checkout name one
    repository and the result is that repository.
   */
  method Resolve(checkout: Option<Checkout>, api: Url, remoteArg: Option<string>, selected: Option<Repo>, push: bool)
    returns (result: Result<ScopeRemote, Error>)
    requires checkout.Some? ==> NormalCheckout(checkout.value)
    requires selected.Some? ==>
               var s := selected.value;
               '/' !in s.owner && '/' !in s.repo && Trimmed(s.owner) && Trimmed(s.repo)
    ensures result.Ok? <==> Resolvable(checkout, api, remoteArg, selected, push)
    ensures result.Ok? && selected.Some? ==> Target(result.value) == selected.value
    ensures result.Ok? && checkout.Some? && remoteArg.None? && BranchDecides(checkout.value, selected) ==>
              result.value.remote == BranchRemote(checkout.value.branch.value)
    ensures result.Ok? && remoteArg.Some? ==> checkout.Some? && result.value.remote == remoteArg.value
    ensures result.Ok? && push && checkout.Some? ==> PushAgrees(checkout.value, result.value)
    ensures result.Ok? && checkout.Some? && remoteArg.None? && !BranchDecides(checkout.value, selected) ==>
              && AllName(checkout.value, selected, Target(result.value))
              && Preferred(checkout.value, selected, push, result.value)
    ensures result.Ok? && checkout.Some? ==> !checkout.value.storedApiConflicts
  {
    if checkout.None? {
      if remoteArg.Some? || selected.None? {
        return Err(Usage);
      }
      result := ForRepository(api, selected.value);
      return;
    }
    var c := checkout.value;
    if c.storedApiConflicts {
      return Err(Usage);
    }
    if remoteArg.Some? {
      result := LoadOne(c, selected, remoteArg.value, push);
      return;
    }
    if selected.None? && c.branch.Some? {
      var branch := c.branch.value;
      if branch.requestRemote.Some? {
        result := LoadOne(c, selected, branch.requestRemote.value, push);
        return;
      }
      if branch.remote.Some? && Load(c, selected, branch.remote.value, false).Some? {
        result := LoadOne(c, selected, branch.remote.value, push);
        return;
      }
    }
    result := AmongAll(c, api, selected, push);
  }

  method LoadOne(c: Checkout, selected: Option<Repo>, name: string, push: bool)
    returns (result: Result<ScopeRemote, Error>)
    requires NormalCheckout(c)
    ensures result.Ok? <==> Load(c, selected, name, push).Some?
    ensures result.Ok? ==>
              && result.value.remote == name
              && (selected.Some? ==> Target(result.value) == selected.value)
              && (push ==> PushAgrees(c, result.value))
  {
    var r := Load(c, selected, name, push);
    if r.None? {
      return Err(BadRemote);
    }
    LoadAgrees(c, selected, name, push);
    result := Ok(r.value);
  }

  method ForRepository(api: Url, repo: Repo) returns (result: Result<ScopeRemote, Error>)
    requires '/' !in repo.owner && '/' !in repo.repo && Trimmed(repo.owner) && Trimmed(repo.repo)
    ensures result.Ok? <==> CanTarget(api, repo)
    ensures result.Ok? ==> Target(result.value) == repo && result.value.view == PRIVATE
  {
    var r := TargetForRepository(api, repo);
    PrintedSegments(PRIVATE, repo.owner, repo.repo,
                    OriginOf(api).(path := "/git/" + PRIVATE + "/" + repo.owner + "/" + repo.repo));
    TrimKeeps(repo.owner);
    TrimKeeps(repo.repo);
    result := if r.Some? then Ok(r.value) else Err(Usage);
  }

  /** The last part of `resolve`: every Scope remote of the checkout is a candidate. */
  method AmongAll(c: Checkout, api: Url, selected: Option<Repo>, push: bool)
    returns (result: Result<ScopeRemote, Error>)
    requires NormalCheckout(c)
    requires selected.Some? ==>
               var s := selected.value;
               '/' !in s.owner && '/' !in s.repo && Trimmed(s.owner) && Trimmed(s.repo)
    ensures result.Ok? <==> HasChoice(c, api, selected, push)
    ensures result.Ok? && selected.Some? ==> Target(result.value) == selected.value
    ensures result.Ok? && push ==> PushAgrees(c, result.value)
    ensures result.Ok? ==> AllName(c, selected, Target(result.value)) && Preferred(c, selected, push, result.value)
  {
    var candidates := Candidates(c, selected);
    if candidates == [] {
      assert !SomeLoads(c, selected, false);
      if selected.Some? && !push {
        result := ForRepository(api, selected.value);
      } else {
        result := Err(Usage);
      }
      return;
    }
    var first := Target(candidates[0]);
    var one := NameOne(c, selected, candidates);
    if !one {
      return Err(Usage);
    }
    if push {
      candidates := PushCandidates(c, selected, candidates, first);
      if candidates == [] {
        assert !SomeLoads(c, selected, true);
        return Err(Usage);
      }
      SomeIsLoaded(c, selected, true, candidates);
    }
    var chosen := Choose(c, selected, push, candidates);
    result := Ok(chosen);
  }

  /** Whether no candidate names another repository than the first. */
  method NameOne(c: Checkout, selected: Option<Repo>, candidates: seq<ScopeRemote>) returns (one: bool)
    requires AreCandidates(c, selected, false, candidates) && candidates != []
    ensures SomeLoads(c, selected, false)
    ensures one <==> exists repo :: AllName(c, selected, repo)
    ensures one ==> AllName(c, selected, Target(candidates[0]))
    ensures one ==> forall r :: r in candidates ==> Target(r) == Target(candidates[0])
  {
    SomeIsLoaded(c, selected, false, candidates);
    one := forall i :: 0 <= i < |candidates| ==> Target(candidates[i]) == Target(candidates[0]);
    CandidatesName(c, selected, candidates, Target(candidates[0]));
    forall repo | AllName(c, selected, repo) ensures one {
      CandidatesName(c, selected, candidates, repo);
    }
  }

  lemma SomeIsLoaded(c: Checkout, selected: Option<Repo>, push: bool, candidates: seq<ScopeRemote>)
    requires AreCandidates(c, selected, push, candidates) && candidates != []
    ensures SomeLoads(c, selected, push)
  {
    assert candidates[0] in candidates;
    var i :| 0 <= i < |c.remotes| && c.remotes[i].name == candidates[0].remote;
  }

  /** The candidates name this repository exactly when all remotes that load do. */
  lemma CandidatesName(c: Checkout, selected: Option<Repo>, candidates: seq<ScopeRemote>, repo: Repo)
    requires AreCandidates(c, selected, false, candidates)
    ensures AllName(c, selected, repo) <==> forall i :: 0 <= i < |candidates| ==> Target(candidates[i]) == repo
  {
    forall i | AllName(c, selected, repo) && 0 <= i < |candidates| ensures Target(candidates[i]) == repo {
      assert candidates[i] in candidates;
      var j :| 0 <= j < |c.remotes| && c.remotes[j].name == candidates[i].remote;
    }
  }

  predicate IsRemote(c: Checkout, name: string) {
    exists i :: 0 <= i < |c.remotes| && c.remotes[i].name == name
  }

  /** The remotes of the checkout that load for this purpose, and no others. */
  ghost predicate AreCandidates(c: Checkout, selected: Option<Repo>, push: bool, candidates: seq<ScopeRemote>) {
    && (forall r :: r in candidates ==> IsRemote(c, r.remote) && Load(c, selected, r.remote, push) == Some(r))
    && (forall i :: 0 <= i < |c.remotes| && Load(c, selected, c.remotes[i].name, push).Some? ==>
          Load(c, selected, c.remotes[i].name, push).value in candidates)
  }

  method Candidates(c: Checkout, selected: Option<Repo>) returns (candidates: seq<ScopeRemote>)
    ensures AreCandidates(c, selected, false, candidates)
  {
    var names := Names(c.remotes);
    candidates := LoadAll(c, selected, names, false);
    forall i | 0 <= i < |c.remotes| && Load(c, selected, c.remotes[i].name, false).Some?
      ensures Load(c, selected, c.remotes[i].name, false).value in candidates
    {
      assert names[i] == c.remotes[i].name;
    }
  }

  method Choose(c: Checkout, selected: Option<Repo>, push: bool, candidates: seq<ScopeRemote>)
    returns (chosen: ScopeRemote)
    requires NormalCheckout(c) && candidates != [] && AreCandidates(c, selected, push, candidates)
    ensures chosen in candidates && Preferred(c, selected, push, chosen)
    ensures selected.Some? ==> Target(chosen) == selected.value
    ensures push ==> PushAgrees(c, chosen)
  {
    var at;
    chosen, at := EarliestLeast(push, candidates);
    assert chosen in candidates;
    LoadAgrees(c, selected, chosen.remote, push);
  }

  /** The candidates that push through the view they fetch. */
  method PushCandidates(c: Checkout, selected: Option<Repo>, candidates: seq<ScopeRemote>, first: Repo)
    returns (kept: seq<ScopeRemote>)
    requires AreCandidates(c, selected, false, candidates) && forall r :: r in candidates ==> Target(r) == first
    ensures AreCandidates(c, selected, true, kept) && forall r :: r in kept ==> Target(r) == first
  {
    var remotes := seq(|candidates|, i requires 0 <= i < |candidates| => candidates[i].remote);
    kept := LoadAll(c, selected, remotes, true);
    forall r | r in kept ensures Target(r) == first {
      ValidatedKeepsTarget(c, selected, r.remote);
      var i :| 0 <= i < |remotes| && remotes[i] == r.remote;
      assert candidates[i] in candidates;
    }
    forall i | 0 <= i < |c.remotes| && Load(c, selected, c.remotes[i].name, true).Some?
      ensures Load(c, selected, c.remotes[i].name, true).value in kept
    {
      var name := c.remotes[i].name;
      ValidatedKeepsTarget(c, selected, name);
      LoadNames(c, selected, name, false);
      var j :| 0 <= j < |candidates| && candidates[j] == Load(c, selected, name, false).value;
      assert remotes[j] == name;
    }
  }

  /** Validating the push address does not change the repository. */
  lemma ValidatedKeepsTarget(c: Checkout, selected: Option<Repo>, name: string)
    ensures Load(c, selected, name, true).Some? ==>
              && Load(c, selected, name, false).Some?
              && Target(Load(c, selected, name, false).value) == Target(Load(c, selected, name, true).value)
  {
  }
}
