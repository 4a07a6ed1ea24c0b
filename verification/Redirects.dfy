/**
 Fetching an address somebody else chose: every hop judged before it is asked, pinned to the
 addresses it was judged by, and carrying a credential only as long as the chain has never
 left the origin the credential belongs to.
 */
module Redirects {
  import opened Wrappers

  const MAX_ADDRESS_ATTEMPTS := 3

  datatype Parts = Parts(scheme: string, username: string, password: string, hostname: string, port: Option<nat>)

  datatype Origin = Origin(scheme: string, host: string, port: Option<nat>)

  datatype Sentence =
    | NoUrl | OddAddress | NotAWebLink | NotAllowed | CouldNotFind
    | CouldNotOpen | CouldNotReach | TookTooLong | DroppedSecureLink | TooManyRedirects | Refused

  datatype Verdict = Problem(sentence: Sentence) | Clean(addresses: seq<string>)

  /** What one request to one address comes to. */
  datatype Reply =
    | NoConnection | SlowAnswer | Broken | Unencodable
    | Elsewhere(location: string)
    | Final(value: string)
    | TurnedDown                       // the caller's own reader refuses the answer

  /**
   What lies outside: text functions, parsing, names and addresses (which may answer differently
   each hop), how the `n`-th request turns out, and whether the budget is spent at the `n`-th look.
   */
  datatype Web = Web(
    strip: string -> string,
    lower: string -> string,
    parse: string -> Option<Parts>,
    literal: string -> Option<string>,
    resolve: (nat, string) -> Option<seq<string>>,
    isPublic: string -> bool,
    join: (string, string) -> string,
    reply: nat -> Reply,
    spent: nat -> bool)

  datatype Policy = Policy(
    allowPrivate: bool,
    requireDefaultPort: bool,
    maxUrlChars: nat,
    maxRedirects: nat,
    sameOriginOnly: bool,
    base: map<string, string>,
    credentials: map<string, string>)

  // ----- judging one address ---------------------------------------------------------------------

  predicate StartsWith(s: string, prefix: string) {
    |prefix| <= |s| && s[..|prefix|] == prefix
  }

  predicate Secure(web: Web, url: string) {
    StartsWith(web.lower(url), "https://")
  }

  predicate Insecure(web: Web, url: string) {
    StartsWith(web.lower(url), "http://")
  }

  function DefaultPort(scheme: string): Option<nat> {
    if scheme == "http" then Some(80) else if scheme == "https" then Some(443) else None
  }

  function OriginOf(web: Web, url: string): Option<Origin> {
    var parts := web.parse(url);
    if parts.None? then None
    else
      var p := parts.value;
      var scheme := web.lower(p.scheme);
      var given := if p.port == Some(0) then None else p.port;
      Some(Origin(scheme, web.lower(p.hostname), if given.Some? then given else DefaultPort(scheme)))
  }

  function VetUrl(web: Web, policy: Policy, hop: nat, url: string): Verdict {
    var candidate := web.strip(url);
    if candidate == "" then Problem(NoUrl)
    else if |candidate| > policy.maxUrlChars then Problem(OddAddress)
    else if !Insecure(web, candidate) && !Secure(web, candidate) then Problem(NotAWebLink)
    else if web.parse(candidate).None? then Problem(NotAWebLink)
    else
      var parts := web.parse(candidate).value;
      var scheme := web.lower(parts.scheme);
      if scheme != "http" && scheme != "https" then Problem(NotAWebLink)
      else if parts.username != "" || parts.password != "" then Problem(NotAWebLink)
      else if parts.hostname == "" then Problem(NotAWebLink)
      else if policy.requireDefaultPort && parts.port.Some? && parts.port != DefaultPort(scheme)
          then Problem(NotAllowed)
      else if web.literal(parts.hostname).Some? then
        var address := web.literal(parts.hostname).value;
        if !policy.allowPrivate && !web.isPublic(address) then Problem(NotAllowed) else Clean([address])
      else
        var found := web.resolve(hop, parts.hostname);
        if found.None? || found.value == [] then Problem(CouldNotFind)
        else if !policy.allowPrivate && !(forall k :: 0 <= k < |found.value| ==> web.isPublic(found.value[k]))
            then Problem(NotAllowed)
        else Clean(found.value)
  }

  /**
   A clean verdict: a web address with a host and nobody's password in it, and addresses of which
   none is private unless that is allowed.
   */
  lemma CleanMeans(web: Web, policy: Policy, hop: nat, url: string)
    requires VetUrl(web, policy, hop, url).Clean?
    ensures var candidate := web.strip(url);
            && 0 < |candidate| <= policy.maxUrlChars && (Insecure(web, candidate) || Secure(web, candidate))
            && web.parse(candidate).Some?
            && var p := web.parse(candidate).value;
               && p.username == "" && p.password == "" && p.hostname != ""
               && (policy.requireDefaultPort && p.port.Some? ==> p.port == DefaultPort(web.lower(p.scheme)))
    ensures var addresses := VetUrl(web, policy, hop, url).addresses;
            addresses != [] && (!policy.allowPrivate ==> forall k :: 0 <= k < |addresses| ==>
                web.isPublic(addresses[k]))
  {
  }

  /** A web address that can be asked at all: it parses, with a host and without a password. */
  predicate Askable(web: Web, candidate: string) {
    && (Insecure(web, candidate) || Secure(web, candidate)) && web.parse(candidate).Some?
    && var p := web.parse(candidate).value;
       && (web.lower(p.scheme) == "http" || web.lower(p.scheme) == "https")
       && p.username == "" && p.password == "" && p.hostname != ""
  }

  predicate OddPort(web: Web, policy: Policy, p: Parts) {
    policy.requireDefaultPort && p.port.Some? && p.port.value != if web.lower(p.scheme) == "http" then 80 else 443
  }

  /** Where a host is: the address its name spells, or else every address it is found at on this hop. */
  function Places(web: Web, hop: nat, host: string): seq<string> {
    if web.literal(host).Some? then [web.literal(host).value]
    else if web.resolve(hop, host).Some? then web.resolve(hop, host).value
    else []
  }

  predicate SomePrivate(web: Web, places: seq<string>) {
    exists k :: 0 <= k < |places| && !web.isPublic(places[k])
  }

  /** A verdict is clean exactly when nothing is wrong with the address, and then holds every place its host is at. */
  lemma CleanIff(web: Web, policy: Policy, hop: nat, url: string, addresses: seq<string>)
    ensures var candidate := web.strip(url);
            VetUrl(web, policy, hop, url) == Clean(addresses) <==>
              && 0 < |candidate| <= policy.maxUrlChars && Askable(web, candidate)
              && var p := web.parse(candidate).value;
                 && !OddPort(web, policy, p) && addresses == Places(web, hop, p.hostname) && addresses != []
                 && (policy.allowPrivate || !SomePrivate(web, addresses))
  {
    var parts := web.parse(web.strip(url));
    if parts.Some? {
      OnePlace(web, hop, parts.value.hostname);
    }
  }

  lemma OnePlace(web: Web, hop: nat, host: string)
    ensures web.literal(host).Some? ==>
              && Places(web, hop, host) == [web.literal(host).value] && Places(web, hop, host) != []
              && (SomePrivate(web, Places(web, hop, host)) <==> !web.isPublic(web.literal(host).value))
  {
    if web.literal(host).Some? {
      assert |Places(web, hop, host)| == 1 && Places(web, hop, host)[0] == web.literal(host).value;
    }
  }

  /** And a problem is told by its own sentence. */
  lemma ProblemIs(web: Web, policy: Policy, hop: nat, url: string)
    requires VetUrl(web, policy, hop, url).Problem?
    ensures var candidate := web.strip(url);
            VetUrl(web, policy, hop, url).sentence ==
              if candidate == "" then NoUrl
              else if |candidate| > policy.maxUrlChars then OddAddress
              else if !Askable(web, candidate) then NotAWebLink
              else
                var p := web.parse(candidate).value;
                if !OddPort(web, policy, p) && Places(web, hop, p.hostname) == [] then CouldNotFind else NotAllowed
  {
    var parts := web.parse(web.strip(url));
    if parts.Some? {
      OnePlace(web, hop, parts.value.hostname);
    }
  }

  // ----- which place an address names --------------------------------------------------------------

  /** The port a request goes to: the one given unless it is 0, or else the scheme's own. */
  function PortAsked(web: Web, p: Parts): Option<nat> {
    if p.port.Some? && p.port.value != 0 then p.port
    else if web.lower(p.scheme) == "http" then Some(80)
    else if web.lower(p.scheme) == "https" then Some(443)
    else None
  }

  /** Both addresses parse, and name the same scheme, the same host and the same port. */
  predicate SamePlace(web: Web, url: string, first: string) {
    && web.parse(url).Some? && web.parse(first).Some?
    && var p, q := web.parse(url).value, web.parse(first).value;
       && web.lower(p.scheme) == web.lower(q.scheme)
       && web.lower(p.hostname) == web.lower(q.hostname)
       && PortAsked(web, p) == PortAsked(web, q)
  }

  lemma SameOriginIs(web: Web, url: string, first: string)
    ensures SameOrigin(web, url, first) <==> SamePlace(web, url, first)
  {
  }

  /**
   Every request carries the credential exactly when its own address and every address between
   are the first one's place; under the same-origin rule every address asked is.
   */
  ghost predicate StaysHome(web: Web, policy: Policy, t: Trail) {
    && (forall i :: 0 <= i < |t.sent| ==>
          && t.sent[i].hop < |t.urls| && t.sent[i].url == t.urls[t.sent[i].hop]
          && t.sent[i].headers ==
               policy.base + if Home(web, t.urls, t.sent[i].hop) then policy.credentials else map[])
    && (policy.sameOriginOnly && t.urls != [] ==> Home(web, t.urls, |t.urls| - 1))
  }

  /** Addresses 1 to `k` all name the place the first one names. */
  predicate Home(web: Web, urls: seq<string>, k: nat)
    requires k < |urls|
  {
    forall j :: 1 <= j <= k ==> SamePlace(web, urls[j], urls[0])
  }

  // ----- the walk ----------------------------------------------------------------------------------

  datatype Sent = Sent(hop: nat, url: string, address: string, headers: map<string, string>)

  /** Every request that went out, every address walked to, and how often the clock was looked at. */
  datatype Trail = Trail(sent: seq<Sent>, urls: seq<string>, looks: nat)

  datatype Outcome = Failed(sentence: Sentence) | Redirect(location: string) | Answered(value: string)

  /** A budget of None never runs out. */
  predicate OutOfTime(web: Web, budget: bool, t: Trail) {
    budget && web.spent(t.looks)
  }

  function Looked(t: Trail, budget: bool): Trail {
    if budget then t.(looks := t.looks + 1) else t
  }

  /** One hop, from its `index`-th address on: only an address that does not connect passes the request to the next. */
  function Hop(web: Web, policy: Policy, budget: bool, t: Trail, hop: nat, url: string, addresses: seq<string>,
               headers: map<string, string>): (Trail, Outcome)
    decreases |addresses|
  {
    if addresses == [] then (t, Failed(CouldNotReach))
    else if OutOfTime(web, budget, t) then (Looked(t, budget), Failed(TookTooLong))
    else
      var t' := Looked(t, budget).(sent := t.sent + [Sent(hop, url, addresses[0], headers)]);
      match web.reply(|t.sent|)
      case NoConnection =>
        if |addresses| == 1 then (t', Failed(CouldNotReach))
        else Hop(web, policy, budget, t', hop, url, addresses[1..], headers)
      case SlowAnswer => (t', Failed(TookTooLong))
      case Broken => (t', Failed(CouldNotReach))
      case Unencodable => (t', Failed(OddAddress))
      case Elsewhere(location) =>
        if location == "" then (t', Failed(CouldNotOpen))
        else if |location| > policy.maxUrlChars then (t', Failed(OddAddress))
        else (t', Redirect(location))
      case Final(value) => (t', Answered(value))
      case TurnedDown => (t', Failed(Refused))
  }

  function FirstFew(addresses: seq<string>): seq<string> {
    if |addresses| <= MAX_ADDRESS_ATTEMPTS then addresses else addresses[..MAX_ADDRESS_ATTEMPTS]
  }

  function HopTo(web: Web, policy: Policy, budget: bool, t: Trail, hop: nat, url: string, addresses: seq<string>,
                 headers: map<string, string>): (Trail, Outcome) {
    if addresses == [] then (t, Failed(CouldNotFind))
    else Hop(web, policy, budget, t, hop, url, FirstFew(addresses), headers)
  }

  predicate SameOrigin(web: Web, url: string, first: string) {
    OriginOf(web, url).Some? && OriginOf(web, url) == OriginOf(web, first)
  }

  /** Hops `hop` on, with `left` of them to go. */
  function Walk(web: Web, policy: Policy, budget: bool, t: Trail, first: string, current: string,
                secrets: map<string, string>, hop: nat, left: nat): (Trail, Outcome)
    decreases left
  {
    if left == 0 then (t, Failed(TooManyRedirects))
    else if OutOfTime(web, budget, t) then (Looked(t, budget), Failed(TookTooLong))
    else
      var t1 := Looked(t, budget).(urls := t.urls + [current]);
      match VetUrl(web, policy, hop, current)
      case Problem(sentence) => (t1, Failed(sentence))
      case Clean(addresses) =>
        var (t2, outcome) := HopTo(web, policy, budget, t1, hop, current, addresses, policy.base + secrets);
        if !outcome.Redirect? then (t2, outcome)
        else
          var next := web.join(current, outcome.location);
          if Secure(web, first) && Insecure(web, next) then (t2, Failed(DroppedSecureLink))
          else if policy.sameOriginOnly && !SameOrigin(web, next, first) then (t2, Failed(NotAllowed))
          else
            Walk(web, policy, budget, t2, first, next,
                 if SameOrigin(web, next, first) then secrets else map[], hop + 1, left - 1)
  }

  /** The driver's loop, and inside it the loop over one hop's addresses. */
  method OpenVetted(web: Web, policy: Policy, budget: bool, url: string) returns (t: Trail, outcome: Outcome)
    ensures (t, outcome) ==
              Walk(web, policy, budget, Trail([], [], 0), web.strip(url), web.strip(url), policy.credentials, 0,
                  policy.maxRedirects + 1)
    ensures StaysHome(web, policy, t)
    ensures EndsFor(web, policy, budget, t, outcome, policy.maxRedirects + 1) && EndsInTime(web, budget, t, outcome)
  {
    hide HopTo, VetUrl, OriginOf, StaysHome, EndsFor, EndsInTime;
    WalkIsExplained(web, policy, budget, url);
    CredentialStaysHome(web, policy, budget, url);
    var secrets, current := policy.credentials, web.strip(url);
    var first, startedSecure := current, Secure(web, current);
    t := Trail([], [], 0);
    for hop := 0 to policy.maxRedirects + 1
      invariant Walk(web, policy, budget, t, first, current, secrets, hop, policy.maxRedirects + 1 - hop) ==
                Walk(web, policy, budget, Trail([], [], 0), first, first, policy.credentials, 0,
                    policy.maxRedirects + 1)
    {
      var late := OutOfTime(web, budget, t);
      t := Looked(t, budget);
      if late {
        return t, Failed(TookTooLong);
      }
      t := t.(urls := t.urls + [current]);
      var verdict := VetUrl(web, policy, hop, current);
      if verdict.Problem? {
        return t, Failed(verdict.sentence);
      }
      t, outcome := OneHop(web, policy, budget, t, hop, current, verdict.addresses, policy.base + secrets);
      if !outcome.Redirect? {
        return;
      }
      var next := web.join(current, outcome.location);
      if startedSecure && Insecure(web, next) {
        return t, Failed(DroppedSecureLink);
      }
      if policy.sameOriginOnly && !SameOrigin(web, next, first) {
        return t, Failed(NotAllowed);
      }
      if secrets != map[] && !SameOrigin(web, next, first) {
        secrets := map[];
      }
      current := next;
    }
    return t, Failed(TooManyRedirects);
  }

  method OneHop(web: Web, policy: Policy, budget: bool, before: Trail, hop: nat, url: string, addresses: seq<string>,
                headers: map<string, string>)
    returns (t: Trail, outcome: Outcome)
    ensures (t, outcome) == HopTo(web, policy, budget, before, hop, url, addresses, headers)
  {
    if addresses == [] {
      return before, Failed(CouldNotFind);
    }
    var attempts := FirstFew(addresses);
    t := before;
    for index := 0 to |attempts|
      invariant Hop(web, policy, budget, t, hop, url, attempts[index..], headers) ==
                Hop(web, policy, budget, before, hop, url, attempts, headers)
    {
      assert attempts[index..][1..] == attempts[index + 1..];
      var late := OutOfTime(web, budget, t);
      if late {
        return Looked(t, budget), Failed(TookTooLong);
      }
      var reply := web.reply(|t.sent|);
      t := Looked(t, budget).(sent := t.sent + [Sent(hop, url, attempts[index], headers)]);
      match reply
      case NoConnection =>
        if index == |attempts| - 1 {
          return t, Failed(CouldNotReach);
        }
      case SlowAnswer => return t, Failed(TookTooLong);
      case Broken => return t, Failed(CouldNotReach);
      case Unencodable => return t, Failed(OddAddress);
      case Elsewhere(location) =>
        if location == "" {
          return t, Failed(CouldNotOpen);
        } else if |location| > policy.maxUrlChars {
          return t, Failed(OddAddress);
        } else {
          return t, Redirect(location);
        }
      case Final(value) => return t, Answered(value);
      case TurnedDown => return t, Failed(Refused);
    }
    return t, Failed(CouldNotReach);
  }

  // ----- what the walk promises --------------------------------------------------------------------

  /** Hops 1 to `k` all share the origin of hop 0. */
  predicate NeverLeft(web: Web, urls: seq<string>, k: nat)
    requires k < |urls|
  {
    forall j :: 1 <= j <= k ==> SameOrigin(web, urls[j], urls[0])
  }

  function Carried(web: Web, policy: Policy, urls: seq<string>, k: nat): map<string, string>
    requires k < |urls|
  {
    policy.base + if NeverLeft(web, urls, k) then policy.credentials else map[]
  }

  /**
   A request goes to an address its own hop was judged by, with the credential exactly when the
   chain has never left.
   */
  predicate SentOk(web: Web, policy: Policy, urls: seq<string>, s: Sent) {
    && s.hop < |urls| && s.url == urls[s.hop]
    && s.headers == Carried(web, policy, urls, s.hop)
    && VetUrl(web, policy, s.hop, s.url).Clean?
    && s.address in FirstFew(VetUrl(web, policy, s.hop, s.url).addresses)
  }

  /**
   The request after another is the same hop's, when nothing was there to connect to, or the next
   hop's, when it was sent there.
   */
  predicate Follows(web: Web, i: nat, s: Sent, s': Sent) {
    if s'.hop == s.hop then web.reply(i).NoConnection?
    else s'.hop == s.hop + 1 && web.reply(i).Elsewhere? && s'.url == web.join(s.url, web.reply(i).location)
  }

  predicate InStep(web: Web, sent: seq<Sent>) {
    forall i :: 0 < i < |sent| ==> Follows(web, i - 1, sent[i - 1], sent[i])
  }

  predicate Kept(web: Web, policy: Policy, urls: seq<string>) {
    && (policy.sameOriginOnly ==> forall k :: 1 <= k < |urls| ==> SameOrigin(web, urls[k], urls[0]))
    && (urls != [] && Secure(web, urls[0]) ==> forall k :: 1 <= k < |urls| ==> !Insecure(web, urls[k]))
  }

  predicate TrailOk(web: Web, policy: Policy, t: Trail) {
    && (forall i :: 0 <= i < |t.sent| ==> SentOk(web, policy, t.urls, t.sent[i]))
    && InStep(web, t.sent)
    && Kept(web, policy, t.urls)
    && |t.sent| <= MAX_ADDRESS_ATTEMPTS * |t.urls|
  }

  /** What one hop adds. */
  predicate HopAdds(web: Web, t: Trail, t': Trail, outcome: Outcome, hop: nat, url: string, addresses: seq<string>,
                    headers: map<string, string>) {
    var n := |t'.sent| - |t.sent|;
    && t'.urls == t.urls && 0 <= n <= |addresses| && t'.sent[..|t.sent|] == t.sent
    && (forall i :: |t.sent| <= i < |t'.sent| ==> t'.sent[i] == Sent(hop, url, addresses[i - |t.sent|], headers))
    && (forall i :: |t.sent| <= i < |t'.sent| - 1 ==> web.reply(i).NoConnection?)
    && (outcome.Redirect? ==> n > 0 && web.reply(|t'.sent| - 1) == Elsewhere(outcome.location))
    && (outcome.Answered? ==> n > 0 && web.reply(|t'.sent| - 1) == Final(outcome.value))
  }

  lemma {:induction false} HopAddsItsOwn(web: Web, policy: Policy, budget: bool, t: Trail, hop: nat, url: string,
                                         addresses: seq<string>, headers: map<string, string>)
    ensures var (t', outcome) := Hop(web, policy, budget, t, hop, url, addresses, headers);
            HopAdds(web, t, t', outcome, hop, url, addresses, headers)
    decreases |addresses|
  {
    if addresses != [] && !OutOfTime(web, budget, t) {
      var one := Looked(t, budget).(sent := t.sent + [Sent(hop, url, addresses[0], headers)]);
      if web.reply(|t.sent|).NoConnection? && |addresses| > 1 {
        HopAddsItsOwn(web, policy, budget, one, hop, url, addresses[1..], headers);
        var (t', outcome) := Hop(web, policy, budget, one, hop, url, addresses[1..], headers);
        OneThenRest(web, t, one, t', outcome, hop, url, addresses, headers);
      }
    }
  }

  lemma OneThenRest(web: Web, t: Trail, one: Trail, t': Trail, outcome: Outcome, hop: nat, url: string,
                    addresses: seq<string>, headers: map<string, string>)
    requires |addresses| > 1 && web.reply(|t.sent|).NoConnection?
    requires one.urls == t.urls && one.sent == t.sent + [Sent(hop, url, addresses[0], headers)]
    requires HopAdds(web, one, t', outcome, hop, url, addresses[1..], headers)
    ensures HopAdds(web, t, t', outcome, hop, url, addresses, headers)
  {
    assert t'.sent[..|t.sent|] == one.sent[..|t.sent|];
    assert t'.sent[|t.sent|] == t'.sent[..|one.sent|][|t.sent|];
    assert forall i :: |one.sent| <= i < |t'.sent| ==> t'.sent[i] == Sent(hop, url, addresses[i - |t.sent|], headers);
  }

  /** How one hop ends, told by its last reply, the clock and how many of its addresses were asked. */
  predicate HopEnds(web: Web, policy: Policy, budget: bool, t: Trail, t': Trail, outcome: Outcome, addresses: nat) {
    var n := |t'.sent| - |t.sent|;
    if outcome == Failed(TookTooLong) && budget && t'.looks > 0 && web.spent(t'.looks - 1) then n < addresses
    else
      && n > 0
      && match web.reply(|t'.sent| - 1)
         case NoConnection => n == addresses && outcome == Failed(CouldNotReach)
         case SlowAnswer => outcome == Failed(TookTooLong)
         case Broken => outcome == Failed(CouldNotReach)
         case Unencodable => outcome == Failed(OddAddress)
         case TurnedDown => outcome == Failed(Refused)
         case Final(value) => outcome == Answered(value)
         case Elsewhere(location) =>
           outcome == if location == "" then Failed(CouldNotOpen)
                      else if |location| > policy.maxUrlChars then Failed(OddAddress)
                      else Redirect(location)
  }

  lemma {:induction false} HopEndsSo(web: Web, policy: Policy, budget: bool, t: Trail, hop: nat, url: string,
                                     addresses: seq<string>, headers: map<string, string>)
    requires addresses != []
    ensures var (t', outcome) := Hop(web, policy, budget, t, hop, url, addresses, headers);
            HopEnds(web, policy, budget, t, t', outcome, |addresses|)
    decreases |addresses|
  {
    if !OutOfTime(web, budget, t) && web.reply(|t.sent|).NoConnection? && |addresses| > 1 {
      var one := Looked(t, budget).(sent := t.sent + [Sent(hop, url, addresses[0], headers)]);
      HopEndsSo(web, policy, budget, one, hop, url, addresses[1..], headers);
      HopAddsItsOwn(web, policy, budget, one, hop, url, addresses[1..], headers);
    }
  }

  /** A hop's requests join the trail of the hops before it. */
  lemma HopKeepsTrail(web: Web, policy: Policy, t: Trail, t': Trail, outcome: Outcome, hop: nat, url: string,
                      addresses: seq<string>, headers: map<string, string>)
    requires HopAdds(web, t, t', outcome, hop, url, addresses, headers) && |addresses| <= MAX_ADDRESS_ATTEMPTS
    requires t.urls != [] && hop == |t.urls| - 1 && url == t.urls[hop] && headers == Carried(web, policy, t.urls, hop)
    requires VetUrl(web, policy, hop, url).Clean? && addresses == FirstFew(VetUrl(web, policy, hop, url).addresses)
    requires TrailOk(web, policy, t) && |t.sent| <= MAX_ADDRESS_ATTEMPTS * hop
    requires t.sent != [] ==> Follows(web, |t.sent| - 1, t.sent[|t.sent| - 1], Sent(hop, url, "", headers))
    ensures TrailOk(web, policy, t')
  {
    hide VetUrl, OriginOf, NeverLeft, Carried, SameOrigin;
    forall i | 0 <= i < |t'.sent| ensures SentOk(web, policy, t'.urls, t'.sent[i]) {
      if i < |t.sent| {
        assert t'.sent[i] == t'.sent[..|t.sent|][i];
      }
    }
    forall i | 0 < i < |t'.sent| ensures Follows(web, i - 1, t'.sent[i - 1], t'.sent[i]) {
      assert i < |t.sent| ==> t'.sent[i] == t'.sent[..|t.sent|][i];
      assert i - 1 < |t.sent| ==> t'.sent[i - 1] == t'.sent[..|t.sent|][i - 1];
    }
  }

  /** One more address to walk to changes nothing about the requests already sent. */
  lemma UrlMore(web: Web, policy: Policy, t: Trail, url: string)
    requires TrailOk(web, policy, t)
    requires t.urls != [] ==>
              && (policy.sameOriginOnly ==> SameOrigin(web, url, t.urls[0]))
              && (Secure(web, t.urls[0]) ==> !Insecure(web, url))
    ensures TrailOk(web, policy, t.(urls := t.urls + [url]))
  {
    hide VetUrl, SameOrigin, Secure, Insecure;
    var urls := t.urls + [url];
    assert t.urls != [] ==> urls[0] == t.urls[0];
    forall i | 0 <= i < |t.sent| ensures SentOk(web, policy, urls, t.sent[i]) {
      assert SentOk(web, policy, t.urls, t.sent[i]);
      NeverLeftStays(web, t.urls, url, t.sent[i].hop);
    }
  }

  lemma NeverLeftStays(web: Web, urls: seq<string>, url: string, k: nat)
    requires k < |urls|
    ensures NeverLeft(web, urls + [url], k) <==> NeverLeft(web, urls, k)
    ensures NeverLeft(web, urls + [url], |urls|) <==> NeverLeft(web, urls, |urls| - 1) && SameOrigin(web, url, urls[0])
  {
    hide SameOrigin;
    var more := urls + [url];
    assert forall j :: 0 <= j < |urls| ==> more[j] == urls[j];
    assert more[|urls|] == url;
  }

  lemma LooksAside(web: Web, policy: Policy, t: Trail, budget: bool)
    requires TrailOk(web, policy, t)
    ensures TrailOk(web, policy, Looked(t, budget))
  {
  }

  /** Where the loop stands before its next hop. */
  predicate Ready(web: Web, policy: Policy, t: Trail, first: string, current: string, secrets: map<string, string>) {
    var urls := t.urls + [current];
    && urls[0] == first && TrailOk(web, policy, t) && TrailOk(web, policy, t.(urls := urls))
    && |t.sent| <= MAX_ADDRESS_ATTEMPTS * |t.urls|
    && secrets == (if NeverLeft(web, urls, |t.urls|) then policy.credentials else map[])
    && (t.sent != [] ==>
        Follows(web, |t.sent| - 1, t.sent[|t.sent| - 1], Sent(|t.urls|, current, "", policy.base + secrets)))
  }

  /** One hop, made from where the loop stands. */
  lemma HopFromReady(web: Web, policy: Policy, budget: bool, t: Trail, first: string, current: string,
                     secrets: map<string, string>)
    requires Ready(web, policy, t, first, current, secrets) && VetUrl(web, policy, |t.urls|, current).Clean?
    ensures var t1 := Looked(t, budget).(urls := t.urls + [current]);
            var addresses := VetUrl(web, policy, |t.urls|, current).addresses;
            var (t2, outcome) := HopTo(web, policy, budget, t1, |t.urls|, current, addresses, policy.base + secrets);
            && TrailOk(web, policy, t2) && t2.urls == t1.urls
            && (outcome.Answered? ==> t2.sent != [] && web.reply(|t2.sent| - 1) == Final(outcome.value))
            && (outcome.Redirect? ==> t2.sent != [] && web.reply(|t2.sent| - 1) == Elsewhere(outcome.location)
                                      && t2.sent[|t2.sent| - 1].hop == |t.urls|
                                      && t2.sent[|t2.sent| - 1].url == current)
  {
    hide VetUrl, Hop, TrailOk, Follows, NeverLeft;
    var t1 := Looked(t, budget).(urls := t.urls + [current]);
    var addresses := VetUrl(web, policy, |t.urls|, current).addresses;
    var headers := policy.base + secrets;
    LooksAside(web, policy, t.(urls := t.urls + [current]), budget);
    if addresses != [] {
      var (t2, outcome) := Hop(web, policy, budget, t1, |t.urls|, current, FirstFew(addresses), headers);
      HopAddsItsOwn(web, policy, budget, t1, |t.urls|, current, FirstFew(addresses), headers);
      HopKeepsTrail(web, policy, t1, t2, outcome, |t.urls|, current, FirstFew(addresses), headers);
    }
  }

  /** Moving on leaves the loop standing where it should. */
  lemma NextIsReady(web: Web, policy: Policy, t: Trail, first: string, current: string, location: string, next: string)
    requires TrailOk(web, policy, t) && t.urls != [] && t.urls[0] == first && t.urls[|t.urls| - 1] == current
    requires t.sent != [] && web.reply(|t.sent| - 1) == Elsewhere(location) && next == web.join(current, location)
    requires t.sent[|t.sent| - 1].hop == |t.urls| - 1 && t.sent[|t.sent| - 1].url == current
    requires !(Secure(web, first) && Insecure(web, next)) && (policy.sameOriginOnly ==> SameOrigin(web, next, first))
    ensures var secrets := if NeverLeft(web, t.urls, |t.urls| - 1) && SameOrigin(web, next, first)
              then policy.credentials else map[];
            Ready(web, policy, t, first, next, secrets)
  {
    hide NeverLeft, SameOrigin, Secure, Insecure, SentOk, Kept;
    UrlMore(web, policy, t, next);
    NeverLeftStays(web, t.urls, next, 0);
    assert |t.sent| <= MAX_ADDRESS_ATTEMPTS * |t.urls|;
  }

  lemma {:induction false} WalkKeepsTrail(web: Web, policy: Policy, budget: bool, t: Trail, first: string,
                                          current: string, secrets: map<string, string>, hop: nat, left: nat)
    requires Ready(web, policy, t, first, current, secrets) && hop == |t.urls|
    ensures var (w, outcome) := Walk(web, policy, budget, t, first, current, secrets, hop, left);
            && TrailOk(web, policy, w) && |t.urls| <= |w.urls| <= |t.urls| + left
            && (|w.urls| > 0 ==> w.urls[0] == first)
            && (outcome.Answered? ==> w.sent != [] && web.reply(|w.sent| - 1) == Final(outcome.value))
    decreases left
  {
    hide VetUrl, HopTo, TrailOk, SameOrigin, Secure, Insecure, Follows, NeverLeft;
    LooksAside(web, policy, t, budget);
    if left > 0 && !OutOfTime(web, budget, t) {
      LooksAside(web, policy, t.(urls := t.urls + [current]), budget);
      if VetUrl(web, policy, hop, current).Clean? {
        var t1 := Looked(t, budget).(urls := t.urls + [current]);
        var addresses := VetUrl(web, policy, hop, current).addresses;
        HopFromReady(web, policy, budget, t, first, current, secrets);
        var (t2, outcome) := HopTo(web, policy, budget, t1, hop, current, addresses, policy.base + secrets);
        if outcome.Redirect? {
          var next := web.join(current, outcome.location);
          if !(Secure(web, first) && Insecure(web, next)) && (policy.sameOriginOnly ==> SameOrigin(web, next, first)) {
            NextIsReady(web, policy, t2, first, current, outcome.location, next);
            var carried := if SameOrigin(web, next, first) then secrets else map[];
            assert carried == if NeverLeft(web, t2.urls, hop) && SameOrigin(web, next, first) then policy.credentials
                else map[];
            WalkKeepsTrail(web, policy, budget, t2, first, next, carried, hop + 1, left - 1);
          }
        }
      }
    }
  }

  /**
   For any redirects, names, addresses and failures: a request carries the credential exactly
   when its hop and all before it share the first hop's origin, and goes to one of the first
   three addresses its own hop was cleared for; a request follows another only when there was
   nothing to connect to, or it was sent there; under the same-origin rule no hop leaves it,
   and a walk begun on https is never sent to http. At most three requests a hop go out, and
   what is returned is what the last of them answered.
   */
  lemma WalkIsSafe(web: Web, policy: Policy, budget: bool, url: string)
    ensures var first := web.strip(url);
            var (w, outcome) := Walk(web, policy, budget, Trail([], [], 0), first, first, policy.credentials, 0,
                policy.maxRedirects + 1);
            && TrailOk(web, policy, w)
            && |w.sent| <= MAX_ADDRESS_ATTEMPTS * (policy.maxRedirects + 1)
            && (w.urls != [] ==> w.urls[0] == first)
            && (outcome.Answered? ==> w.sent != [] && web.reply(|w.sent| - 1) == Final(outcome.value))
  {
    hide Walk, Ready, TrailOk;
    var first := web.strip(url);
    StartIsReady(web, policy, first);
    WalkKeepsTrail(web, policy, budget, Trail([], [], 0), first, first, policy.credentials, 0, policy.maxRedirects + 1);
    var w := Walk(web, policy, budget, Trail([], [], 0), first, first, policy.credentials, 0,
        policy.maxRedirects + 1).0;
    FewSent(web, policy, w);
  }

  lemma TrailStaysHome(web: Web, policy: Policy, t: Trail)
    requires TrailOk(web, policy, t)
    ensures StaysHome(web, policy, t)
  {
    hide SamePlace, SameOrigin, VetUrl, Follows, Secure, Insecure;
    forall url, first ensures SameOrigin(web, url, first) <==> SamePlace(web, url, first) {
      SameOriginIs(web, url, first);
    }
    forall i | 0 <= i < |t.sent|
      ensures t.sent[i].hop < |t.urls| && t.sent[i].url == t.urls[t.sent[i].hop]
      ensures t.sent[i].headers == policy.base + if Home(web, t.urls, t.sent[i].hop) then policy.credentials else map[]
    {
      assert SentOk(web, policy, t.urls, t.sent[i]);
      assert NeverLeft(web, t.urls, t.sent[i].hop) <==> Home(web, t.urls, t.sent[i].hop);
    }
  }

  lemma CredentialStaysHome(web: Web, policy: Policy, budget: bool, url: string)
    ensures StaysHome(web, policy,
              Walk(web, policy, budget, Trail([], [], 0), web.strip(url), web.strip(url), policy.credentials, 0,
                policy.maxRedirects + 1).0)
  {
    hide Walk, TrailOk, StaysHome;
    WalkIsSafe(web, policy, budget, url);
    TrailStaysHome(web, policy,
      Walk(web, policy, budget, Trail([], [], 0), web.strip(url), web.strip(url), policy.credentials, 0,
        policy.maxRedirects + 1).0);
  }

  lemma StartIsReady(web: Web, policy: Policy, first: string)
    ensures Ready(web, policy, Trail([], [], 0), first, first, policy.credentials)
  {
    assert [] + [first] == [first];
  }

  lemma FewSent(web: Web, policy: Policy, t: Trail)
    requires TrailOk(web, policy, t)
    ensures |t.sent| <= MAX_ADDRESS_ATTEMPTS * |t.urls|
  {
  }

  // ----- how a walk ends -----------------------------------------------------------------------------

  /** The request last sent belongs to the address last walked to. */
  predicate Asked(t: Trail) {
    t.sent != [] && t.sent[|t.sent| - 1].hop == |t.urls| - 1
  }

  /** Where the last reply sends the walk, when it sends it anywhere it may be sent. */
  predicate SentOn(web: Web, policy: Policy, t: Trail) {
    && t.urls != [] && Asked(t) && web.reply(|t.sent| - 1).Elsewhere?
    && 0 < |web.reply(|t.sent| - 1).location| <= policy.maxUrlChars
  }

  function NextUrl(web: Web, policy: Policy, t: Trail): string
    requires SentOn(web, policy, t)
  {
    web.join(t.urls[|t.urls| - 1], web.reply(|t.sent| - 1).location)
  }

  predicate LastPlaceUsedUp(web: Web, policy: Policy, t: Trail)
    requires t.urls != [] && t.sent != []
  {
    var hop := |t.urls| - 1;
    var verdict := VetUrl(web, policy, hop, t.urls[hop]);
    && verdict.Clean? && verdict.addresses != []
    && t.sent[|t.sent| - 1].address == FirstFew(verdict.addresses)[|FirstFew(verdict.addresses)| - 1]
  }

  /**
   Why a walk ended as it did, told from what went out and what came back: an answer is the last
   reply's, and each failure has its one reason.
   */
  predicate EndsFor(web: Web, policy: Policy, budget: bool, t: Trail, outcome: Outcome, hops: nat) {
    if outcome == Failed(TookTooLong) && budget && t.looks > 0 && web.spent(t.looks - 1) then true
    else if t.urls == [] then outcome == Failed(TooManyRedirects) && hops == 0
    else if !Asked(t) then
      var verdict := VetUrl(web, policy, |t.urls| - 1, t.urls[|t.urls| - 1]);
      verdict.Problem? && outcome == Failed(verdict.sentence)
    else
      match web.reply(|t.sent| - 1)
      case NoConnection => LastPlaceUsedUp(web, policy, t) && outcome == Failed(CouldNotReach)
      case SlowAnswer => outcome == Failed(TookTooLong)
      case Broken => outcome == Failed(CouldNotReach)
      case Unencodable => outcome == Failed(OddAddress)
      case TurnedDown => outcome == Failed(Refused)
      case Final(value) => outcome == Answered(value)
      case Elsewhere(location) =>
        if location == "" then outcome == Failed(CouldNotOpen)
        else if |location| > policy.maxUrlChars then outcome == Failed(OddAddress)
        else
          var next := web.join(t.urls[|t.urls| - 1], location);
          if Secure(web, t.urls[0]) && Insecure(web, next) then outcome == Failed(DroppedSecureLink)
          else if policy.sameOriginOnly && !SamePlace(web, next, t.urls[0]) then outcome == Failed(NotAllowed)
          else outcome == Failed(TooManyRedirects) && |t.urls| == hops
  }

  /** Before each hop after the first, the walk stands where the last reply sent it. */
  predicate Arrived(web: Web, policy: Policy, t: Trail, first: string, current: string) {
    if t.urls == [] then t.sent == [] && current == first
    else
      && t.urls[0] == first && SentOn(web, policy, t) && current == NextUrl(web, policy, t)
      && !(Secure(web, first) && Insecure(web, current))
      && (policy.sameOriginOnly ==> SamePlace(web, current, first))
  }

  /** A hop that is made: what it comes to is the walk's end, or sends it on. */
  lemma HopLeads(web: Web, policy: Policy, budget: bool, t: Trail, current: string, headers: map<string, string>,
                 hops: nat)
    requires VetUrl(web, policy, |t.urls|, current).Clean?
    ensures var t1 := Looked(t, budget).(urls := t.urls + [current]);
            var addresses := VetUrl(web, policy, |t.urls|, current).addresses;
            var (t2, outcome) := HopTo(web, policy, budget, t1, |t.urls|, current, addresses, headers);
            && t2.urls == t1.urls
            && (if outcome.Redirect? then
                  SentOn(web, policy, t2) && NextUrl(web, policy, t2) == web.join(current, outcome.location)
                else EndsFor(web, policy, budget, t2, outcome, hops))
  {
    hide VetUrl, Hop, Secure, Insecure, SamePlace;
    CleanMeans(web, policy, |t.urls|, current);
    var t1 := Looked(t, budget).(urls := t.urls + [current]);
    var few := FirstFew(VetUrl(web, policy, |t.urls|, current).addresses);
    HopEndsSo(web, policy, budget, t1, |t.urls|, current, few, headers);
    HopAddsItsOwn(web, policy, budget, t1, |t.urls|, current, few, headers);
  }

  lemma {:induction false} WalkEndsSo(web: Web, policy: Policy, budget: bool, t: Trail, first: string,
                                      current: string, secrets: map<string, string>, hop: nat, left: nat)
    requires Arrived(web, policy, t, first, current) && hop == |t.urls|
    requires t.sent != [] ==> t.sent[|t.sent| - 1].hop < hop
    ensures var (w, outcome) := Walk(web, policy, budget, t, first, current, secrets, hop, left);
            EndsFor(web, policy, budget, w, outcome, hop + left)
    decreases left
  {
    hide VetUrl, HopTo, Secure, Insecure, SamePlace, SameOrigin;
    if left > 0 && !OutOfTime(web, budget, t) && VetUrl(web, policy, hop, current).Clean? {
      var t1 := Looked(t, budget).(urls := t.urls + [current]);
      var addresses := VetUrl(web, policy, hop, current).addresses;
      HopLeads(web, policy, budget, t, current, policy.base + secrets, hop + left);
      var (t2, outcome) := HopTo(web, policy, budget, t1, hop, current, addresses, policy.base + secrets);
      if outcome.Redirect? {
        var next := web.join(current, outcome.location);
        SameOriginIs(web, next, first);
        if !(Secure(web, first) && Insecure(web, next)) && (policy.sameOriginOnly ==> SameOrigin(web, next, first)) {
          WalkEndsSo(web, policy, budget, t2, first, next, if SameOrigin(web, next, first) then secrets else map[],
                     hop + 1, left - 1);
        }
      }
    }
  }

  /** With a budget, the clock was looked at once before each address walked to and each request, and found time. */
  predicate InTime(web: Web, budget: bool, t: Trail) {
    budget ==> t.looks == |t.urls| + |t.sent| && forall p :: 0 <= p < t.looks ==> !web.spent(p)
  }

  /** And a walk ends at the first look that finds none. */
  predicate EndsInTime(web: Web, budget: bool, t: Trail, outcome: Outcome) {
    || InTime(web, budget, t)
    || (budget && outcome == Failed(TookTooLong) && t.looks > 0 && web.spent(t.looks - 1)
        && InTime(web, budget, t.(looks := t.looks - 1)))
  }

  lemma {:induction false} HopIsInTime(web: Web, policy: Policy, budget: bool, t: Trail, hop: nat, url: string,
                                       addresses: seq<string>, headers: map<string, string>)
    requires InTime(web, budget, t)
    ensures var (t', outcome) := Hop(web, policy, budget, t, hop, url, addresses, headers);
            EndsInTime(web, budget, t', outcome) && (outcome.Redirect? ==> InTime(web, budget, t'))
    decreases |addresses|
  {
    if addresses != [] && !OutOfTime(web, budget, t) {
      var one := Looked(t, budget).(sent := t.sent + [Sent(hop, url, addresses[0], headers)]);
      assert InTime(web, budget, one);
      if web.reply(|t.sent|).NoConnection? && |addresses| > 1 {
        HopIsInTime(web, policy, budget, one, hop, url, addresses[1..], headers);
      }
    }
  }

  lemma {:induction false} WalkIsInTime(web: Web, policy: Policy, budget: bool, t: Trail, first: string,
                                        current: string, secrets: map<string, string>, hop: nat, left: nat)
    requires InTime(web, budget, t)
    ensures var (w, outcome) := Walk(web, policy, budget, t, first, current, secrets, hop, left);
            EndsInTime(web, budget, w, outcome)
    decreases left
  {
    hide VetUrl, Hop, Secure, Insecure, SameOrigin;
    if left > 0 && !OutOfTime(web, budget, t) && VetUrl(web, policy, hop, current).Clean? {
      var t1 := Looked(t, budget).(urls := t.urls + [current]);
      assert InTime(web, budget, t1);
      var addresses := VetUrl(web, policy, hop, current).addresses;
      HopIsInTime(web, policy, budget, t1, hop, current, FirstFew(addresses), policy.base + secrets);
      var (t2, outcome) := HopTo(web, policy, budget, t1, hop, current, addresses, policy.base + secrets);
      if outcome.Redirect? {
        var next := web.join(current, outcome.location);
        WalkIsInTime(web, policy, budget, t2, first, next, if SameOrigin(web, next, first) then secrets else map[],
                     hop + 1, left - 1);
      }
    }
  }

  lemma WalkIsExplained(web: Web, policy: Policy, budget: bool, url: string)
    ensures var (w, outcome) := Walk(web, policy, budget, Trail([], [], 0), web.strip(url), web.strip(url),
                                     policy.credentials, 0, policy.maxRedirects + 1);
            EndsFor(web, policy, budget, w, outcome, policy.maxRedirects + 1) && EndsInTime(web, budget, w, outcome)
  {
    hide Walk, EndsFor, EndsInTime, SentOn;
    WalkIsInTime(web, policy, budget, Trail([], [], 0), web.strip(url), web.strip(url), policy.credentials, 0,
                 policy.maxRedirects + 1);
    WalkEndsSo(web, policy, budget, Trail([], [], 0), web.strip(url), web.strip(url), policy.credentials, 0,
               policy.maxRedirects + 1);
  }

  lemma OneScheme(web: Web, url: string)
    ensures !(Secure(web, url) && Insecure(web, url))
  {
    PrefixAt(web.lower(url), "https://", 4);
    PrefixAt(web.lower(url), "http://", 4);
  }

  lemma PrefixAt(s: string, prefix: string, k: nat)
    requires k < |prefix|
    ensures StartsWith(s, prefix) ==> k < |s| && s[k] == prefix[k]
  {
    if StartsWith(s, prefix) {
      assert s[..|prefix|][k] == s[k];
    }
  }

  /** The address, blanks around it off, is a plain http one; with the blanks on it does not read as one. */
  predicate PaddedPlain(web: Web, url: string) {
    web.strip(url) != url && Insecure(web, web.strip(url))
  }

  /**
   A walk begun on https sends a request to https exactly unless its address is an http one with
   blanks around it: the check reads the address with its blanks, the verdict without them.
   */
  lemma SecureStaysSecure(web: Web, policy: Policy, budget: bool, url: string, i: nat)
    requires Secure(web, web.strip(url))
    ensures var first := web.strip(url);
            var w := Walk(web, policy, budget, Trail([], [], 0), first, first, policy.credentials, 0,
                          policy.maxRedirects + 1).0;
            i < |w.sent| ==> (Secure(web, web.strip(w.sent[i].url)) <==> !PaddedPlain(web, w.sent[i].url))
  {
    hide Walk, OriginOf, VetUrl, Secure, Insecure;
    WalkIsSafe(web, policy, budget, url);
    var first := web.strip(url);
    var w := Walk(web, policy, budget, Trail([], [], 0), first, first, policy.credentials, 0,
        policy.maxRedirects + 1).0;
    if i < |w.sent| {
      var s := w.sent[i];
      assert SentOk(web, policy, w.urls, s);
      CleanMeans(web, policy, s.hop, s.url);
      OneScheme(web, web.strip(s.url));
      OneScheme(web, s.url);
      if s.hop > 0 {
        assert !Insecure(web, w.urls[s.hop]);
      }
    }
  }

  /** Requests that are answered at once, each by the one address its hop was cleared for. */
  predicate OneAddress(web: Web, policy: Policy, hop: nat, url: string, address: string) {
    VetUrl(web, policy, hop, url) == Clean([address])
  }

  /** One hop that is sent on. */
  lemma WalkRedirects(web: Web, policy: Policy, t: Trail, first: string, current: string, address: string,
                      location: string, secrets: map<string, string>, hop: nat, left: nat)
    requires left > 0 && OneAddress(web, policy, hop, current, address)
    requires web.reply(|t.sent|) == Elsewhere(location) && 0 < |location| <= policy.maxUrlChars
    requires !policy.sameOriginOnly && !(Secure(web, first) && Insecure(web, web.join(current, location)))
    ensures var next := web.join(current, location);
            var t' := Trail(t.sent + [Sent(hop, current, address, policy.base + secrets)], t.urls + [current], t.looks);
            Walk(web, policy, false, t, first, current, secrets, hop, left) ==
            Walk(web, policy, false, t', first, next, if SameOrigin(web, next, first) then secrets else map[],
                 hop + 1, left - 1)
  {
    hide VetUrl, OriginOf, Secure, Insecure;
  }

  /** One hop that is answered. */
  lemma WalkFinishes(web: Web, policy: Policy, t: Trail, first: string, current: string, address: string,
                     secrets: map<string, string>, hop: nat, left: nat)
    requires left > 0 && OneAddress(web, policy, hop, current, address) && web.reply(|t.sent|).Final?
    ensures Walk(web, policy, false, t, first, current, secrets, hop, left).0.sent ==
            t.sent + [Sent(hop, current, address, policy.base + secrets)]
  {
    hide VetUrl, OriginOf, Secure, Insecure;
  }

  /** Whenever a walk begun on https is redirected to such an address, it is sent there. */
  lemma PaddingGoesPlain(web: Web, policy: Policy, url: string, location: string, address: string, address': string)
    requires var first := web.strip(url);
             Secure(web, first) && OneAddress(web, policy, 0, first, address)
    requires var next := web.join(web.strip(url), location);
             PaddedPlain(web, next) && !Insecure(web, next) && OneAddress(web, policy, 1, next, address')
    requires web.reply(0) == Elsewhere(location) && 0 < |location| <= policy.maxUrlChars && web.reply(1).Final?
    requires policy.maxRedirects > 0 && !policy.sameOriginOnly
    ensures var first := web.strip(url);
            var w := Walk(web, policy, false, Trail([], [], 0), first, first, policy.credentials, 0,
                          policy.maxRedirects + 1).0;
            |w.sent| == 2 && w.sent[1].url == web.join(first, location) && !Secure(web, web.strip(w.sent[1].url))
  {
    hide Walk, VetUrl, OriginOf, Secure, Insecure;
    var first, t0 := web.strip(url), Trail([], [], 0);
    var next := web.join(first, location);
    WalkRedirects(web, policy, t0, first, first, address, location, policy.credentials, 0, policy.maxRedirects + 1);
    var t1 := Trail(t0.sent + [Sent(0, first, address, policy.base + policy.credentials)], t0.urls + [first], 0);
    var secrets := if SameOrigin(web, next, first) then policy.credentials else map[];
    WalkFinishes(web, policy, t1, first, next, address', secrets, 1, policy.maxRedirects);
    OneScheme(web, web.strip(next));
  }

  /** A web on which that happens. */
  function PaddingWeb(): Web {
    Web(
      s => if s == " http://b" then "http://b" else s,
      s => s,
      s => Some(Parts("http", "", "", "b", None)),
      s => Some("192.0.2.1"),
      (hop, s) => None,
      s => true,
      (base, location) => " http://b",
      n => if n == 0 then Elsewhere("b") else Final(""),
      n => false)
  }

  const OPEN_POLICY := Policy(true, false, 100, 1, false, map[], map[])

  lemma PaddingHappens()
    ensures var web := PaddingWeb();
            var w := Walk(web, OPEN_POLICY, false, Trail([], [], 0), "https://a", "https://a", map[], 0, 2).0;
            |w.sent| == 2 && PaddedPlain(web, w.sent[1].url)
  {
    hide Walk;
    var web := PaddingWeb();
    PrefixAt(" http://b", "http://", 0);
    assert "https://a"[..8] == "https://" && "http://b"[..7] == "http://" && " http://b"[0] == ' ';
    PaddingGoesPlain(web, OPEN_POLICY, "https://a", "b", "192.0.2.1", "192.0.2.1");
  }
}
