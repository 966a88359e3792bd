/** Who is notified of what, and on which channel (pkg/common/notification_policy.go and
    pkg/common/notification_prefs.go): the administrator's bounds, the user's preferences,
    and the two rewrites that are meant to make the stored preferences the whole answer. */
module NotificationPolicy {
  import opened Wrappers
  import StableSort
  import Text

  const IN_APP: string := "in_app"
  const EMAIL: string := "email"

  predicate Known(channel: string) {
    channel == IN_APP || channel == EMAIL
  }

  // ---------- values ----------

  /** An empty allow-list allows every known channel. */
  datatype Bounds = Bounds(allowed: seq<string>, mandatory: map<string, seq<string>>)

  /** An empty event list is all events. */
  datatype Wishes = Wishes(inApp: bool, email: bool, events: seq<string>)

  const DefaultWishes := Wishes(true, false, [])

  predicate MayEnable(p: Option<Bounds>, channel: string) {
    Known(channel) && (p.None? || p.value.allowed == [] || channel in p.value.allowed)
  }

  predicate Pinned(p: Option<Bounds>, channel: string, event: string) {
    Known(channel) && p.Some? && event in p.value.mandatory && channel in p.value.mandatory[event]
  }

  /** Some event is mandatory on the channel. */
  predicate Carries(p: Option<Bounds>, channel: string) {
    p.Some? && exists event | event in p.value.mandatory :: Pinned(p, channel, event)
  }

  predicate Enabled(w: Wishes, channel: string) {
    (channel == IN_APP && w.inApp) || (channel == EMAIL && w.email)
  }

  predicate Wants(w: Option<Wishes>, channel: string, event: string) {
    var v := if w.None? then DefaultWishes else w.value;
    Enabled(v, channel) && (v.events == [] || event in v.events)
  }

  /** The order of precedence the documentation gives: mandatory, then disallowed, then the wish. */
  predicate Delivered(p: Option<Bounds>, w: Option<Wishes>, channel: string, event: string) {
    Pinned(p, channel, event) || (MayEnable(p, channel) && Wants(w, channel, event))
  }

  // ---------- channel lists ----------

  predicate Names(channels: seq<string>, channel: string) {
    exists c | c in channels :: Text.ToLower(Text.Trim(c)) == channel
  }

  /** Known channels only, each once, in the fixed order. */
  predicate Canonical(channels: seq<string>) {
    channels == [] || channels == [IN_APP] || channels == [EMAIL] || channels == [IN_APP, EMAIL]
  }

  lemma CanonicalIsItsMembers(a: seq<string>, b: seq<string>)
    requires Canonical(a) && Canonical(b)
    requires IN_APP in a <==> IN_APP in b
    requires EMAIL in a <==> EMAIL in b
    ensures a == b
  {
    ChannelsDiffer();
  }

  lemma ChannelsDiffer()
    ensures IN_APP != EMAIL
  {
    assert |IN_APP| != |EMAIL|;
  }

  method NormalizeChannels(channels: seq<string>) returns (out: seq<string>)
    ensures Canonical(out)
    ensures forall c :: c in out <==> Known(c) && Names(channels, c)
  {
    var seen: set<string> := {};
    for i := 0 to |channels|
      invariant forall c :: c in seen <==> Known(c) && Names(channels[..i], c)
    {
      var c := Text.ToLower(Text.Trim(channels[i]));
      assert channels[..i + 1] == channels[..i] + [channels[i]];
      if Known(c) {
        seen := seen + {c};
      }
    }
    assert channels[..|channels|] == channels;
    out := [];
    if IN_APP in seen {
      out := out + [IN_APP];
    }
    if EMAIL in seen {
      out := out + [EMAIL];
    }
  }

  // ---------- the objects ----------

  class Prefs {
    var inApp: bool
    var email: bool
    var events: seq<string>

    constructor (w: Wishes)
      ensures Value() == w
    {
      inApp, email, events := w.inApp, w.email, w.events;
    }

    function Value(): Wishes
      reads this
    {
      Wishes(inApp, email, events)
    }

    predicate ChannelEnabled(channel: string)
      reads this
      ensures ChannelEnabled(channel) == Enabled(Value(), channel)
    {
      if channel == IN_APP then inApp else if channel == EMAIL then email else false
    }

    method SetChannelEnabled(channel: string, enabled: bool)
      modifies this
      ensures events == old(events)
      ensures inApp == if channel == IN_APP then enabled else old(inApp)
      ensures email == if channel == EMAIL && channel != IN_APP then enabled else old(email)
    {
      if channel == IN_APP {
        inApp := enabled;
      } else if channel == EMAIL {
        email := enabled;
      }
    }
  }

  /** What Normalize makes of the mandatory events, done for some keys: an entry for each event
      named by a non-blank key with a known channel.  Keys that trim to the same event compete,
      and Go's map order decides. */
  predicate From(m: map<string, seq<string>>, key: string, event: string, channels: seq<string>) {
    && key in m && Text.Trim(key) == event && event != "" && channels != [] && Canonical(channels)
    && (IN_APP in channels <==> Names(m[key], IN_APP)) && (EMAIL in channels <==> Names(m[key], EMAIL))
  }

  predicate Useful(m: map<string, seq<string>>, key: string) {
    key in m && Text.Trim(key) != "" && (Names(m[key], IN_APP) || Names(m[key], EMAIL))
  }

  predicate Cleaned(m: map<string, seq<string>>, keys: set<string>, cleaned: map<string, seq<string>>) {
    && (forall k {:trigger Useful(m, k)} | k in keys && Useful(m, k) :: Text.Trim(k) in cleaned)
    && (forall e | e in cleaned :: exists k | k in keys :: From(m, k, e, cleaned[e]))
  }

  function KnownIn(channels: seq<string>): (out: seq<string>)
    ensures Canonical(out)
    ensures forall c :: c in out <==> Known(c) && Names(channels, c)
  {
    (if Names(channels, IN_APP) then [IN_APP] else []) + (if Names(channels, EMAIL) then [EMAIL] else [])
  }

  /** The cleaned events after one more key. */
  function WithKey(m: map<string, seq<string>>, cleaned: map<string, seq<string>>, key: string)
    : map<string, seq<string>>
  {
    if Useful(m, key) then cleaned[Text.Trim(key) := KnownIn(m[key])] else cleaned
  }

  /** The cleaned events when Go visits the keys in this order. */
  function InOrder(m: map<string, seq<string>>, order: seq<string>): map<string, seq<string>> {
    if order == [] then map[]
    else WithKey(m, InOrder(m, order[..|order| - 1]), order[|order| - 1])
  }

  predicate IsOrder(m: map<string, seq<string>>, order: seq<string>) {
    multiset(order) == multiset(m.Keys)
  }

  lemma {:induction false} InOrderCleans(m: map<string, seq<string>>, order: seq<string>)
    ensures Cleaned(m, (set k | k in order), InOrder(m, order))
  {
    if order != [] {
      var n := |order| - 1;
      var before, key := order[..n], order[n];
      InOrderCleans(m, before);
      assert order == before + [key];
      KeyCleans(m, (set k | k in before), InOrder(m, before), key);
      assert (set k | k in order) == (set k | k in before) + {key};
    }
  }

  lemma KeyCleans(m: map<string, seq<string>>, keys: set<string>, cleaned: map<string, seq<string>>, key: string)
    requires Cleaned(m, keys, cleaned)
    ensures Cleaned(m, keys + {key}, WithKey(m, cleaned, key))
  {
    var after := WithKey(m, cleaned, key);
    forall e | e in after ensures exists k | k in keys + {key} :: From(m, k, e, after[e]) {
      if Useful(m, key) && e == Text.Trim(key) {
        assert From(m, key, e, after[e]);
      } else {
        var k :| k in keys && From(m, k, e, cleaned[e]);
        assert k in keys + {key};
      }
    }
  }

  predicate PinnedBy(cleaned: map<string, seq<string>>, events: set<string>, channel: string) {
    exists e | e in events :: e in cleaned && channel in cleaned[e]
  }

  /** What Normalize makes of the allow-list: its known channels, and if there are any, every
      mandatory channel as well. */
  ghost predicate Promoted(allowed: seq<string>, cleaned: map<string, seq<string>>, out: seq<string>) {
    && Canonical(out)
    && forall c | Known(c) :: c in out <==>
         Names(allowed, c) ||
         (PinnedBy(cleaned, cleaned.Keys, c) && (Names(allowed, IN_APP) || Names(allowed, EMAIL)))
  }

  class Policy {
    var allowed: seq<string>
    var mandatory: map<string, seq<string>>

    constructor (p: Bounds)
      ensures Value() == p
    {
      allowed, mandatory := p.allowed, p.mandatory;
    }

    function Value(): Bounds
      reads this
    {
      Bounds(allowed, mandatory)
    }

    method ChannelAllowed(channel: string) returns (ok: bool)
      ensures ok == MayEnable(Some(Value()), channel)
    {
      if !Known(channel) {
        return false;
      }
      if |allowed| == 0 {
        return true;
      }
      for i := 0 to |allowed|
        invariant channel !in allowed[..i]
      {
        if allowed[i] == channel {
          return true;
        }
      }
      ok := false;
    }

    /** In the fixed order. */
    method MandatoryChannelsFor(event: string) returns (out: seq<string>)
      ensures Canonical(out) && forall c :: c in out <==> Pinned(Some(Value()), c, event)
    {
      out := [];
      if event !in mandatory {
        return;
      }
      if IN_APP in mandatory[event] {
        out := out + [IN_APP];
      }
      if EMAIL in mandatory[event] {
        out := out + [EMAIL];
      }
    }

    method IsMandatory(channel: string, event: string) returns (yes: bool)
      ensures yes == Pinned(Some(Value()), channel, event)
    {
      var channels := MandatoryChannelsFor(event);
      for i := 0 to |channels|
        invariant channel !in channels[..i]
      {
        if channels[i] == channel {
          assert channel in channels;
          return true;
        }
      }
      assert channels[..|channels|] == channels;
      yes := false;
    }

    /** In alphabetical order. */
    method MandatoryEventsForChannel(channel: string) returns (out: seq<string>)
      ensures forall e :: e in out <==> Pinned(Some(Value()), channel, e)
      ensures StableSort.Sorted(out, Text.Less)
    {
      out := [];
      var rest := mandatory.Keys;
      while rest != {}
        invariant rest <= mandatory.Keys
        invariant forall e :: e in out <==> e !in rest && Pinned(Some(Value()), channel, e)
      {
        var event :| event in rest;
        var yes := IsMandatory(channel, event);
        if yes {
          out := out + [event];
        }
        rest := rest - {event};
      }
      SortedMembers(out);
      out := StableSort.Sort(out, Text.Less);
    }

    /** The one decision point; no stored preferences read as a new user's. */
    method Deliver(prefs: Option<Wishes>, channel: string, event: string) returns (yes: bool)
      ensures yes == Delivered(Some(Value()), prefs, channel, event)
    {
      var pinned := IsMandatory(channel, event);
      if pinned {
        return true;
      }
      var ok := ChannelAllowed(channel);
      if !ok {
        return false;
      }
      yes := Wants(prefs, channel, event);
    }

    method Normalize()
      modifies this
      ensures exists order :: IsOrder(old(mandatory), order) && mandatory == InOrder(old(mandatory), order)
      ensures Cleaned(old(mandatory), old(mandatory).Keys, mandatory)
      ensures Promoted(old(allowed), mandatory, allowed)
    {
      var given := allowed;
      allowed := NormalizeChannels(allowed);
      if |mandatory| == 0 {
        assert mandatory == map[] && IsOrder(mandatory, []) && InOrder(mandatory, []) == map[];
        mandatory := map[];
        return;
      }
      var cleaned := Clean(mandatory);
      mandatory := cleaned;
      if |allowed| > 0 {
        var promoted := Promote(allowed, cleaned);
        allowed := NormalizeChannels(promoted);
        forall c | Known(c)
          ensures c in allowed <==> Names(given, c) || PinnedBy(cleaned, cleaned.Keys, c)
        {
          KnownAreNamed(promoted, c);
        }
      }
    }

    /** Rewrites the preferences in place; true when that changed them. */
    method ClampPrefs(prefs: Prefs) returns (changed: bool)
      modifies prefs
      ensures Clamps(Some(Value()), old(prefs.Value()), prefs.Value())
      ensures changed <==> prefs.Value() != old(prefs.Value())
    {
      ChannelsDiffer();
      var inApp := ClampChannel(prefs, IN_APP);
      var email := ClampChannel(prefs, EMAIL);
      changed := inApp || email;
      if |prefs.events| > 0 {
        var first := FoldEvents(prefs, IN_APP);
        var second := FoldEvents(prefs, EMAIL);
        changed := changed || first || second;
      }
    }

    /** One round of the first loop of ClampPrefs. */
    method ClampChannel(prefs: Prefs, channel: string) returns (changed: bool)
      requires Known(channel)
      modifies prefs
      ensures prefs.events == old(prefs.events)
      ensures channel == IN_APP ==> prefs.email == old(prefs.email)
      ensures channel == EMAIL ==> prefs.inApp == old(prefs.inApp)
      ensures Enabled(prefs.Value(), channel) == Switched(Some(Value()), channel, Enabled(old(prefs.Value()), channel))
      ensures changed <==> Enabled(prefs.Value(), channel) != Enabled(old(prefs.Value()), channel)
    {
      ChannelsDiffer();
      var enabled := prefs.ChannelEnabled(channel);
      var ok := ChannelAllowed(channel);
      var pinned := MandatoryEventsForChannel(channel);
      assert |pinned| > 0 ==> pinned[0] in pinned;
      if enabled && !ok && |pinned| == 0 {
        prefs.SetChannelEnabled(channel, false);
        return true;
      }
      if !enabled && |pinned| > 0 {
        prefs.SetChannelEnabled(channel, true);
        return true;
      }
      changed := false;
    }

    /** One round of the second loop of ClampPrefs. */
    method FoldEvents(prefs: Prefs, channel: string) returns (changed: bool)
      requires Known(channel)
      modifies prefs
      ensures prefs.inApp == old(prefs.inApp) && prefs.email == old(prefs.email)
      ensures Extends(old(prefs.events), prefs.events)
      ensures forall e :: e in prefs.events <==> e in old(prefs.events) || Pinned(Some(Value()), channel, e)
      ensures changed <==> prefs.events != old(prefs.events)
    {
      changed := false;
      var pinned := MandatoryEventsForChannel(channel);
      for i := 0 to |pinned|
        invariant prefs.inApp == old(prefs.inApp) && prefs.email == old(prefs.email)
        invariant Extends(old(prefs.events), prefs.events)
        invariant forall e :: e in prefs.events <==> e in old(prefs.events) || e in pinned[..i]
        invariant changed <==> prefs.events != old(prefs.events)
      {
        if pinned[i] !in prefs.events {
          prefs.events := prefs.events + [pinned[i]];
          changed := true;
        }
      }
      assert pinned[..|pinned|] == pinned;
    }
  }

  lemma NormalizedKey(m: map<string, seq<string>>, key: string, normalized: seq<string>)
    requires key in m && Canonical(normalized)
    requires forall c :: c in normalized <==> Known(c) && Names(m[key], c)
    ensures normalized == KnownIn(m[key])
    ensures Useful(m, key) <==> Text.Trim(key) != "" && |normalized| > 0
  {
    CanonicalIsItsMembers(normalized, KnownIn(m[key]));
  }

  lemma OrderGrows(m: map<string, seq<string>>, order: seq<string>, key: string)
    ensures InOrder(m, order + [key]) == WithKey(m, InOrder(m, order), key)
    ensures multiset(order + [key]) == multiset(order) + multiset{key}
  {
    assert (order + [key])[..|order|] == order;
  }

  lemma OneLess(keys: set<string>, rest: set<string>, key: string)
    requires rest <= keys && key in rest
    ensures multiset(keys - (rest - {key})) == multiset(keys - rest) + multiset{key}
  {
    assert keys - (rest - {key}) == keys - rest + {key};
  }

  method Clean(m: map<string, seq<string>>) returns (cleaned: map<string, seq<string>>)
    ensures exists order :: IsOrder(m, order) && cleaned == InOrder(m, order)
    ensures Cleaned(m, m.Keys, cleaned)
  {
    cleaned := map[];
    ghost var order: seq<string> := [];
    var rest := m.Keys;
    while rest != {}
      invariant rest <= m.Keys && multiset(order) == multiset(m.Keys - rest)
      invariant cleaned == InOrder(m, order)
    {
      var key :| key in rest;
      var event := Text.Trim(key);
      var normalized := NormalizeChannels(m[key]);
      NormalizedKey(m, key, normalized);
      OrderGrows(m, order, key);
      if event != "" && |normalized| > 0 {
        cleaned := cleaned[event := normalized];
      }
      order := order + [key];
      OneLess(m.Keys, rest, key);
      rest := rest - {key};
    }
    assert m.Keys - rest == m.Keys;
    OrderedCleans(m, order);
  }

  /** Each mandatory channel not yet on the list, appended. */
  method Promote(allowed: seq<string>, cleaned: map<string, seq<string>>) returns (out: seq<string>)
    requires Canonical(allowed) && forall e | e in cleaned :: Canonical(cleaned[e])
    ensures forall c :: c in out <==> c in allowed || PinnedBy(cleaned, cleaned.Keys, c)
    ensures forall c | c in out :: Known(c)
  {
    out := allowed;
    var rest := cleaned.Keys;
    while rest != {}
      invariant rest <= cleaned.Keys
      invariant forall c :: c in out <==> c in allowed || PinnedBy(cleaned, cleaned.Keys - rest, c)
      invariant forall c | c in out :: Known(c)
    {
      var e :| e in rest;
      var channels := cleaned[e];
      ghost var before := out;
      for i := 0 to |channels|
        invariant forall c :: c in out <==> c in before || c in channels[..i]
        invariant forall c | c in out :: Known(c)
      {
        if channels[i] !in out {
          out := out + [channels[i]];
        }
      }
      assert channels[..|channels|] == channels;
      assert cleaned.Keys - (rest - {e}) == cleaned.Keys - rest + {e};
      rest := rest - {e};
    }
  }

  lemma KnownAreNamed(channels: seq<string>, c: string)
    requires Known(c) && forall x | x in channels :: Known(x)
    ensures Names(channels, c) <==> c in channels
  {
    forall x | Known(x) ensures Text.ToLower(Text.Trim(x)) == x {
      KnownIsItself(x);
    }
  }

  lemma KnownIsItself(c: string)
    requires Known(c)
    ensures Text.ToLower(Text.Trim(c)) == c
  {
    Text.TrimTrims(c);
    assert Text.Trimmed(c);
    LowerIsItself(c);
  }

  lemma LowerIsItself(c: string)
    requires Known(c)
    ensures Text.ToLower(c) == c
  {}

  lemma SortedMembers(xs: seq<string>)
    ensures forall x :: x in StableSort.Sort(xs, Text.Less) <==> x in xs
    ensures StableSort.Sorted(StableSort.Sort(xs, Text.Less), Text.Less)
  {
    StableSort.SortPermutes(xs, Text.Less);
    assert forall x :: x in StableSort.Sort(xs, Text.Less) <==> x in multiset(StableSort.Sort(xs, Text.Less));
    assert forall x :: x in xs <==> x in multiset(xs);
    Text.LessOrders();
    StableSort.SortSorts(xs, Text.Less);
  }

  // ---------- what clamping is ----------

  predicate Switched(p: Option<Bounds>, channel: string, enabled: bool) {
    Carries(p, channel) || (enabled && MayEnable(p, channel))
  }

  /** b is a with new entries appended, none of them twice. */
  predicate Extends(a: seq<string>, b: seq<string>) {
    a <= b && forall i | |a| <= i < |b| :: b[i] !in b[..i]
  }

  ghost predicate Clamps(p: Option<Bounds>, a: Wishes, b: Wishes) {
    && b.inApp == Switched(p, IN_APP, a.inApp)
    && b.email == Switched(p, EMAIL, a.email)
    && (a.events == [] ==> b.events == [])
    && (a.events != [] ==>
          && Extends(a.events, b.events)
          && forall e :: e in b.events <==> e in a.events || Pinned(p, IN_APP, e) || Pinned(p, EMAIL, e))
  }

  // ---------- normalized policies ----------

  /** An entry as Normalize stores it. */
  predicate Tidy(event: string, channels: seq<string>) {
    event != "" && Text.Trim(event) == event && channels != [] && Canonical(channels)
  }

  predicate AllKnown(channels: seq<string>) {
    forall c | c in channels :: Known(c)
  }

  /** What Normalize leaves: clean lists, no entry without a name or a channel, and an
      allow-list that does not contradict the mandatory events. */
  predicate Normal(p: Bounds) {
    && Canonical(p.allowed)
    && (forall e | e in p.mandatory :: Tidy(e, p.mandatory[e]))
    && (p.allowed == [] || forall e, c | e in p.mandatory && c in p.mandatory[e] :: c in p.allowed)
  }

  lemma FromIsTidy(m: map<string, seq<string>>, key: string, event: string, channels: seq<string>)
    requires From(m, key, event, channels)
    ensures Tidy(event, channels)
  {
    Text.TrimTrims(key);
  }

  lemma CanonicalAreKnown(channels: seq<string>)
    requires Canonical(channels)
    ensures AllKnown(channels)
  {}

  /** Whatever map order Go picks, the result is normal. */
  lemma NormalizedIsNormal(p: Bounds, q: Bounds)
    requires Cleaned(p.mandatory, p.mandatory.Keys, q.mandatory) && Promoted(p.allowed, q.mandatory, q.allowed)
    ensures Normal(q)
  {
    forall e | e in q.mandatory ensures Tidy(e, q.mandatory[e]) && AllKnown(q.mandatory[e]) {
      var k :| k in p.mandatory.Keys && From(p.mandatory, k, e, q.mandatory[e]);
      FromIsTidy(p.mandatory, k, e, q.mandatory[e]);
      CanonicalAreKnown(q.mandatory[e]);
    }
    PromotedCoversAll(p.allowed, q.mandatory, q.allowed);
  }

  lemma PromotedCoversAll(allowed: seq<string>, cleaned: map<string, seq<string>>, out: seq<string>)
    requires Promoted(allowed, cleaned, out) && forall e | e in cleaned :: AllKnown(cleaned[e])
    ensures out == [] || forall e, c | e in cleaned && c in cleaned[e] :: c in out
  {
    CanonicalAreKnown(out);
    if out != [] {
      assert out[0] in out && Known(out[0]);
      forall e, c | e in cleaned && c in cleaned[e] ensures c in out {
        assert Known(c) && PinnedBy(cleaned, cleaned.Keys, c);
      }
    }
  }

  lemma CanonicalNames(channels: seq<string>, c: string)
    requires Canonical(channels) && Known(c)
    ensures Names(channels, c) <==> c in channels
  {
    CanonicalAreKnown(channels);
    KnownAreNamed(channels, c);
  }

  /** Normalizing a normal policy changes nothing. */
  lemma NormalizeIsIdempotent(p: Bounds, q: Bounds)
    requires Normal(p)
    requires Cleaned(p.mandatory, p.mandatory.Keys, q.mandatory) && Promoted(p.allowed, q.mandatory, q.allowed)
    ensures q == p
  {
    CleanedIsSame(p.mandatory, q.mandatory);
    PromotedIsSame(p.allowed, q.mandatory, q.allowed);
  }

  lemma CleanedIsSame(m: map<string, seq<string>>, cleaned: map<string, seq<string>>)
    requires Cleaned(m, m.Keys, cleaned) && forall k | k in m :: Tidy(k, m[k])
    ensures cleaned == m
  {
    forall e ensures SameAt(m, cleaned, e) {
      EntryStays(m, cleaned, e);
    }
    SameEverywhere(m, cleaned);
  }

  predicate SameAt(a: map<string, seq<string>>, b: map<string, seq<string>>, e: string) {
    (e in a <==> e in b) && (e in a ==> b[e] == a[e])
  }

  lemma SameEverywhere(a: map<string, seq<string>>, b: map<string, seq<string>>)
    requires forall e :: SameAt(a, b, e)
    ensures a == b
  {
    assert forall e | e in a :: SameAt(a, b, e);
    assert forall e | e in b :: SameAt(a, b, e);
  }

  lemma EntryStays(m: map<string, seq<string>>, cleaned: map<string, seq<string>>, e: string)
    requires Cleaned(m, m.Keys, cleaned) && forall k | k in m :: Tidy(k, m[k])
    ensures SameAt(m, cleaned, e)
  {
    if e in m {
      TidyIsUseful(m, e);
    }
    if e in cleaned {
      var k :| k in m.Keys && From(m, k, e, cleaned[e]);
      FromTidyIsSame(m, k, e, cleaned[e]);
    }
  }

  lemma TidyIsUseful(m: map<string, seq<string>>, e: string)
    requires e in m && Tidy(e, m[e])
    ensures Useful(m, e) && Text.Trim(e) == e
  {
    CanonicalAreKnown(m[e]);
    assert m[e][0] in m[e] && Known(m[e][0]);
    CanonicalNames(m[e], m[e][0]);
  }

  lemma FromTidyIsSame(m: map<string, seq<string>>, k: string, e: string, channels: seq<string>)
    requires From(m, k, e, channels) && Tidy(k, m[k])
    ensures k == e && channels == m[k]
  {
    CanonicalNames(m[k], IN_APP);
    CanonicalNames(m[k], EMAIL);
    CanonicalIsItsMembers(channels, m[k]);
  }

  lemma PromotedIsSame(allowed: seq<string>, cleaned: map<string, seq<string>>, out: seq<string>)
    requires Promoted(allowed, cleaned, out) && Canonical(allowed)
    requires allowed == [] || forall e, c | e in cleaned && c in cleaned[e] :: c in allowed
    ensures out == allowed
  {
    CanonicalNames(allowed, IN_APP);
    CanonicalNames(allowed, EMAIL);
    assert allowed == [] || allowed[0] in allowed;
    CanonicalIsItsMembers(out, allowed);
  }

  /** In every order Go may visit the entries in, what is stored makes the event mandatory on
      the channel. */
  ghost predicate AlwaysPinned(m: map<string, seq<string>>, channel: string, event: string) {
    forall order, allowed | IsOrder(m, order) ::
      Pinned(Some(Bounds(allowed, InOrder(m, order))), channel, event)
  }

  /** Every key that stands for the event names the channel. */
  predicate AllName(m: map<string, seq<string>>, channel: string, event: string) {
    forall k {:trigger Useful(m, k)} | k in m && Useful(m, k) && Text.Trim(k) == event :: Names(m[k], channel)
  }

  /** Normalizing is certain to keep a mandatory delivery if and only if its event is named without
      blanks around it, and no other key that trims to it leaves the channel out. */
  lemma NormalizeKeepsMandatory(p: Bounds, channel: string, event: string)
    requires Pinned(Some(p), channel, event)
    ensures AlwaysPinned(p.mandatory, channel, event) <==>
            event != "" && Text.Trim(event) == event && AllName(p.mandatory, channel, event)
  {
    var m := p.mandatory;
    if !AllName(m, channel, event) {
      var k :| k in m && Useful(m, k) && Text.Trim(k) == event && !Names(m[k], channel);
      LostWhenLast(m, k, channel);
    } else if event == "" || Text.Trim(event) != event {
      LostWithBlanks(m, channel, event);
    } else {
      KnownNameThemselves(m[event], channel);
      forall order, allowed | IsOrder(m, order)
        ensures Pinned(Some(Bounds(allowed, InOrder(m, order))), channel, event)
      {
        KeptInOrder(m, order, channel, event);
      }
    }
  }

  lemma LostWhenLast(m: map<string, seq<string>>, k: string, channel: string)
    requires Useful(m, k) && !Names(m[k], channel)
    ensures !AlwaysPinned(m, channel, Text.Trim(k))
  {
    var before := OrderWithLast(m, k);
    OrderGrows(m, before, k);
    var stored := WithKey(m, InOrder(m, before), k);
    assert stored[Text.Trim(k)] == KnownIn(m[k]) && channel !in KnownIn(m[k]);
    assert !Pinned(Some(Bounds([], stored)), channel, Text.Trim(k));
  }

  lemma OrderWithLast(m: map<string, seq<string>>, k: string) returns (before: seq<string>)
    requires k in m
    ensures IsOrder(m, before + [k])
  {
    before := OrderOf(m.Keys - {k});
    assert multiset(m.Keys) == multiset(m.Keys - {k}) + multiset{k};
  }

  lemma LostWithBlanks(m: map<string, seq<string>>, channel: string, event: string)
    requires event == "" || Text.Trim(event) != event
    ensures !AlwaysPinned(m, channel, event)
  {
    var order := OrderOf(m.Keys);
    OrderedCleans(m, order);
    if event in InOrder(m, order) {
      var k :| k in m.Keys && From(m, k, event, InOrder(m, order)[event]);
      Text.TrimTrims(k);
    }
    assert !Pinned(Some(Bounds([], InOrder(m, order))), channel, event);
  }

  lemma OrderedCleans(m: map<string, seq<string>>, order: seq<string>)
    requires IsOrder(m, order)
    ensures Cleaned(m, m.Keys, InOrder(m, order))
  {
    InOrderCleans(m, order);
    assert (set k | k in order) == m.Keys by {
      assert forall k :: k in order <==> k in multiset(order);
    }
  }

  lemma KeptInOrder(m: map<string, seq<string>>, order: seq<string>, channel: string, event: string)
    requires IsOrder(m, order) && Known(channel) && Useful(m, event) && Text.Trim(event) == event
    requires AllName(m, channel, event)
    ensures event in InOrder(m, order) && channel in InOrder(m, order)[event]
  {
    OrderedCleans(m, order);
    var k :| k in m.Keys && From(m, k, event, InOrder(m, order)[event]);
    assert Useful(m, k);
  }

  ghost function OrderOf(keys: set<string>): (order: seq<string>)
    ensures multiset(order) == multiset(keys)
  {
    if keys == {} then [] else
      var k :| k in keys;
      assert multiset(keys) == multiset(keys - {k}) + multiset{k};
      OrderOf(keys - {k}) + [k]
  }

  lemma KnownNameThemselves(channels: seq<string>, c: string)
    requires Known(c) && c in channels
    ensures Names(channels, c)
  {
    KnownIsItself(c);
  }

  // ---------- clamped preferences ----------

  /** Only the app and mail exist as channels; a policy that lists any allows just those of them. */
  lemma AllowedChannels(p: Option<Bounds>, channel: string)
    ensures MayEnable(p, channel) <==>
            channel in ["in_app", "email"] &&
            (p.Some? && |p.value.allowed| > 0 ==> exists c | c in p.value.allowed :: c == channel)
  {
    assert channel in ["in_app", "email"] <==> Known(channel);
  }

  /** A user without stored preferences gets every event in the app, if that may be enabled, and
      elsewhere only what is mandatory. */
  lemma NewUserIsToldInApp(p: Option<Bounds>, channel: string, event: string)
    ensures Delivered(p, None, channel, event) <==>
            Pinned(p, channel, event) || (channel == "in_app" && MayEnable(p, channel))
    ensures Delivered(None, None, channel, event) <==> channel == "in_app"
  {
    ChannelsDiffer();
  }

  /** What is stored is what happens: for a policy that was normalized and preferences that
      were clamped to it, delivery is the user's wish and nothing else. */
  lemma ClampedWishesDecide(p: Bounds, a: Wishes, b: Wishes, channel: string, event: string)
    requires Normal(p) && Clamps(Some(p), a, b) && Known(channel)
    ensures Delivered(Some(p), Some(b), channel, event) <==> Wants(Some(b), channel, event)
  {
    NormalIsConsistent(p);
    ConsistentDecides(p, a, b, channel, event);
  }

  /** No channel carries a mandatory event without being allowed. */
  predicate Consistent(p: Bounds) {
    forall e, c | e in p.mandatory && c in p.mandatory[e] && Known(c) :: MayEnable(Some(p), c)
  }

  lemma NormalIsConsistent(p: Bounds)
    requires Normal(p)
    ensures Consistent(p)
  {}

  lemma ConsistentDecides(p: Bounds, a: Wishes, b: Wishes, channel: string, event: string)
    requires Consistent(p) && Clamps(Some(p), a, b) && Known(channel)
    ensures Delivered(Some(p), Some(b), channel, event) <==> Wants(Some(b), channel, event)
  {
    ChannelsDiffer();
    if Carries(Some(p), channel) {
      var e :| e in p.mandatory && Pinned(Some(p), channel, e);
      assert MayEnable(Some(p), channel);
    }
  }

  ghost predicate ClampedAlwaysDecides(p: Bounds) {
    forall a, b, channel, event | Clamps(Some(p), a, b) && Known(channel) ::
      Delivered(Some(p), Some(b), channel, event) <==> Wants(Some(b), channel, event)
  }

  /** That is exactly what normalizing is needed for: it holds of a policy, for all preferences,
      if and only if no mandatory channel is disallowed. */
  lemma ClampedDecidesIffConsistent(p: Bounds)
    ensures ClampedAlwaysDecides(p) <==> Consistent(p)
  {
    if Consistent(p) {
      forall a, b, channel, event | Clamps(Some(p), a, b) && Known(channel)
        ensures Delivered(Some(p), Some(b), channel, event) <==> Wants(Some(b), channel, event)
      {
        ConsistentDecides(p, a, b, channel, event);
      }
    } else {
      var e, c :| e in p.mandatory && c in p.mandatory[e] && Known(c) && !MayEnable(Some(p), c);
      assert Pinned(Some(p), c, e);
      var event := Fresh(p.mandatory.Keys);
      var b := Wishes(Switched(Some(p), IN_APP, true), Switched(Some(p), EMAIL, true), []);
      assert Clamps(Some(p), Wishes(true, true, []), b);
      assert Wants(Some(b), c, event) && !Delivered(Some(p), Some(b), c, event);
    }
  }

  lemma Fresh(keys: set<string>) returns (s: string)
    ensures s !in keys
  {
    s := Longer(keys);
  }

  lemma Longer(keys: set<string>) returns (s: string)
    ensures forall k | k in keys :: |k| < |s|
    decreases |keys|
  {
    if keys == {} {
      return "";
    }
    var k :| k in keys;
    var t := Longer(keys - {k});
    s := t + k + "x";
    forall j | j in keys ensures |j| < |s| {
      assert j == k || j in keys - {k};
    }
  }

  /** Clamping twice is clamping once. */
  lemma ClampIsIdempotent(p: Option<Bounds>, a: Wishes, b: Wishes, c: Wishes)
    requires Clamps(p, a, b) && Clamps(p, b, c)
    ensures c == b
  {
    if b.events != [] {
      GrowsByNew(b.events, c.events);
    }
  }

  lemma GrowsByNew(a: seq<string>, b: seq<string>)
    requires Extends(a, b)
    ensures a == b || exists e | e in b :: e !in a
  {
    if |a| < |b| {
      assert b[|a|] in b && b[..|a|] == a;
    }
  }

  /** Whatever the policy, clamping never takes a delivery away. */
  lemma ClampKeepsDeliveries(p: Option<Bounds>, a: Wishes, b: Wishes, channel: string, event: string)
    requires Clamps(p, a, b) && Delivered(p, Some(a), channel, event)
    ensures Delivered(p, Some(b), channel, event)
  {
    ChannelsDiffer();
    if a.events != [] {
      assert b.events[0] == a.events[0];
    }
  }

  /** The event is mandatory on some channel. */
  predicate PinnedSomewhere(p: Option<Bounds>, event: string) {
    Pinned(p, IN_APP, event) || Pinned(p, EMAIL, event)
  }

  /** The event passes the event list, as it was given. */
  predicate Lists(w: Wishes, event: string) {
    w.events == [] || event in w.events
  }

  /** The event is new on the channel: it is not mandatory there, the channel may be enabled
      and is on or had to be switched on, the list now lets the event through, and before the
      channel was off or the list left it out. */
  predicate Added(p: Option<Bounds>, a: Wishes, channel: string, event: string) {
    && MayEnable(p, channel) && !Pinned(p, channel, event)
    && (Enabled(a, channel) || Carries(p, channel))
    && (Lists(a, event) || PinnedSomewhere(p, event))
    && !(Enabled(a, channel) && Lists(a, event))
  }

  /** What clamping adds, exactly, in terms of the policy and the preferences before it. */
  lemma ClampAddsExactly(p: Option<Bounds>, a: Wishes, b: Wishes, channel: string, event: string)
    requires Clamps(p, a, b)
    ensures Delivered(p, Some(b), channel, event) && !Delivered(p, Some(a), channel, event) <==>
            Added(p, a, channel, event)
  {
    ClampedList(p, a, b, event);
    if Known(channel) {
      ClampedChannel(p, a, b, channel);
    }
    AddedFrom(p, a, b, channel, event);
  }

  lemma AddedFrom(p: Option<Bounds>, a: Wishes, b: Wishes, channel: string, event: string)
    requires Lists(b, event) <==> Lists(a, event) || PinnedSomewhere(p, event)
    requires Known(channel) ==> Enabled(b, channel) == Switched(p, channel, Enabled(a, channel))
    ensures Delivered(p, Some(b), channel, event) && !Delivered(p, Some(a), channel, event) <==>
            Added(p, a, channel, event)
  {
    assert Wants(Some(a), channel, event) == (Enabled(a, channel) && Lists(a, event));
    assert Wants(Some(b), channel, event) == (Enabled(b, channel) && Lists(b, event));
  }

  lemma ClampedList(p: Option<Bounds>, a: Wishes, b: Wishes, event: string)
    requires Clamps(p, a, b)
    ensures Lists(b, event) <==> Lists(a, event) || PinnedSomewhere(p, event)
  {
    assert a.events != [] ==> b.events[0] == a.events[0];
  }

  lemma ClampedChannel(p: Option<Bounds>, a: Wishes, b: Wishes, channel: string)
    requires Clamps(p, a, b) && Known(channel)
    ensures Enabled(b, channel) == Switched(p, channel, Enabled(a, channel))
  {
    ChannelsDiffer();
  }

  /** Clamping can add nothing on this channel: it may not be enabled at all; or it is on, and
      the list already has every event mandatory elsewhere; or it is off and stays off, or is
      switched on with a list of nothing but its own mandatory events. */
  predicate Settled(p: Option<Bounds>, a: Wishes, channel: string) {
    || !MayEnable(p, channel)
    || (Enabled(a, channel) && (a.events == [] || MandatoryAre(p, a.events, channel)))
    || (!Enabled(a, channel) && !Carries(p, channel))
    || (!Enabled(a, channel) && a.events != [] && MandatoryAre(p, [], channel)
        && forall e | e in a.events :: Pinned(p, channel, e))
  }

  /** Every event mandatory somewhere is in the list or mandatory on this channel. */
  predicate MandatoryAre(p: Option<Bounds>, events: seq<string>, channel: string) {
    p.None? || forall e | e in p.value.mandatory && PinnedSomewhere(p, e) :: e in events || Pinned(p, channel, e)
  }

  ghost predicate WidensNothing(p: Option<Bounds>, a: Wishes, b: Wishes, channel: string) {
    forall event | Delivered(p, Some(b), channel, event) :: Delivered(p, Some(a), channel, event)
  }

  /** So clamping widens nothing on a channel, whatever the event, if and only if the channel
      is settled: something the policy and the preferences show before the call. */
  lemma WidensNothingIffSettled(p: Option<Bounds>, a: Wishes, b: Wishes, channel: string)
    requires Clamps(p, a, b) && Known(channel)
    ensures WidensNothing(p, a, b, channel) <==> Settled(p, a, channel)
  {
    if Settled(p, a, channel) {
      forall event | Delivered(p, Some(b), channel, event) ensures Delivered(p, Some(a), channel, event) {
        SettledAdds(p, a, channel, event);
        ClampAddsExactly(p, a, b, channel, event);
      }
    } else {
      UnsettledWidens(p, a, b, channel);
    }
  }

  lemma SettledAdds(p: Option<Bounds>, a: Wishes, channel: string, event: string)
    requires Settled(p, a, channel)
    ensures !Added(p, a, channel, event)
  {}

  lemma UnsettledWidens(p: Option<Bounds>, a: Wishes, b: Wishes, channel: string)
    requires Clamps(p, a, b) && Known(channel) && !Settled(p, a, channel)
    ensures !WidensNothing(p, a, b, channel)
  {
    var event := AddedEvent(p, a, channel);
    ClampAddsExactly(p, a, b, channel, event);
    assert Delivered(p, Some(b), channel, event) && !Delivered(p, Some(a), channel, event);
  }

  /** An event that clamping adds on a channel that is not settled. */
  lemma AddedEvent(p: Option<Bounds>, a: Wishes, channel: string) returns (event: string)
    requires Known(channel) && !Settled(p, a, channel)
    ensures Added(p, a, channel, event)
  {
    if Enabled(a, channel) {
      event :| && event in p.value.mandatory && PinnedSomewhere(p, event)
               && event !in a.events && !Pinned(p, channel, event);
    } else if a.events == [] {
      event := Fresh(p.value.mandatory.Keys);
    } else if !MandatoryAre(p, [], channel) {
      event :| event in p.value.mandatory && PinnedSomewhere(p, event) && !Pinned(p, channel, event);
    } else {
      event :| event in a.events && !Pinned(p, channel, event);
    }
  }

  /** It does add: when one event is mandatory in the app, a user who had switched everything
      off is left with every event there. */
  lemma ClampMayWiden()
    ensures exists p, a, b, event ::
              && Normal(p) && Clamps(Some(p), a, b) && Delivered(Some(p), Some(b), IN_APP, event)
              && !Delivered(Some(p), Some(a), IN_APP, event) && !Pinned(Some(p), IN_APP, event)
  {
    var p := Bounds([], map["login" := [IN_APP]]);
    Text.TrimTrims("login");
    assert Normal(p);
    ChannelsDiffer();
    assert "other" !in p.mandatory;
    assert Pinned(Some(p), IN_APP, "login");
    assert !Carries(Some(p), EMAIL);
    var a, b := Wishes(false, false, []), Wishes(true, false, []);
    assert Clamps(Some(p), a, b);
    assert Delivered(Some(p), Some(b), IN_APP, "other") && !Delivered(Some(p), Some(a), IN_APP, "other");
  }
}
