/** The model catalog (internal/catalog/catalog.go): one snapshot built from the
    decoded entries, indexed under two identifiers per record. URL parsing is the
    parameter `escapes`. */
module Catalog {
  import opened Common

  datatype Override = Override(protocol: string, endpoint: string)

  datatype Config = Config(prefix: Option<string>, overrides: map<string, Override>, chat: bool, messages: bool,
                           responses: bool, escapes: string -> bool, staleWhileUnavailable: bool, maxResponseBytes: int)

  datatype Entry = Entry(id: string, displayName: string, contextLength: int, maxOutputTokens: int,
                         inputModes: seq<string>, outputModes: seq<string>,
                         inputModalities: seq<string>, outputModalities: seq<string>)

  datatype Record = Record(publicId: string, upstreamId: string, displayName: string, protocol: string, endpoint: string,
                           contextLimit: int, outputLimit: int, inputModes: seq<string>, outputModes: seq<string>)

  datatype Reason = MissingId | ProtocolDisabled(protocol: string) | EscapesHost | Collision(publicId: string, upstreamId: string)

  datatype Unsupported = Unsupported(upstreamId: string, reason: Reason)

  datatype Warning = DuplicateId(id: string) | Overridden(id: string, choice: Override) | Clash(reason: Reason) | Notice(text: string)

  datatype Snapshot = Snapshot(models: seq<Record>, index: map<string, Record>, unsup: seq<Unsupported>, warns: seq<Warning>,
                               seen: set<string>)

  const CHAT := "chat-completions"
  const MESSAGES := "messages"
  const RESPONSES := "responses"

  function PublicId(c: Config, upstreamId: string): string {
    if c.prefix.Some? then c.prefix.value + "/" + upstreamId else upstreamId
  }

  function EndpointPath(route: string): string {
    if route == CHAT then "/v1/chat/completions"
    else if route == MESSAGES then "/v1/messages"
    else if route == RESPONSES then "/v1/responses"
    else ""
  }

  /** The route, its endpoint override, and the diagnostic an override leaves. */
  function Resolve(c: Config, e: Entry): (string, string, seq<Warning>) {
    if e.id in c.overrides then (c.overrides[e.id].protocol, c.overrides[e.id].endpoint, [Overridden(e.id, c.overrides[e.id])])
    else (CHAT, "", [])
  }

  predicate Enabled(c: Config, route: string) {
    if route == CHAT then c.chat else if route == MESSAGES then c.messages else if route == RESPONSES then c.responses else true
  }

  predicate Escapes(c: Config, endpoint: string) { endpoint != "" && c.escapes(endpoint) }

  function FirstNonEmpty(a: seq<string>, b: seq<string>): seq<string> { if |a| > 0 then a else b }

  function RecordOf(c: Config, e: Entry): Record {
    var route := Resolve(c, e);
    Record(PublicId(c, e.id), e.id, if e.displayName == "" then e.id else e.displayName, route.0,
           if route.1 == "" then EndpointPath(route.0) else route.1, e.contextLength, e.maxOutputTokens,
           FirstNonEmpty(e.inputModes, e.inputModalities), FirstNonEmpty(e.outputModes, e.outputModalities))
  }

  // ---- building a snapshot ----

  function Exclude(s: Snapshot, id: string, reason: Reason): Snapshot { s.(unsup := s.unsup + [Unsupported(id, reason)]) }

  function Admit(s: Snapshot, rec: Record): Snapshot {
    if rec.publicId in s.index then
      var reason := Collision(rec.publicId, s.index[rec.publicId].upstreamId);
      Exclude(s.(warns := s.warns + [Clash(reason)]), rec.upstreamId, reason)
    else if rec.upstreamId in s.index then
      var reason := Collision(s.index[rec.upstreamId].publicId, rec.upstreamId);
      Exclude(s.(warns := s.warns + [Clash(reason)]), rec.upstreamId, reason)
    else s.(models := s.models + [rec], index := s.index[rec.publicId := rec][rec.upstreamId := rec])
  }

  function Take(c: Config, s: Snapshot, e: Entry): Snapshot {
    if e.id == "" then Exclude(s, "", MissingId)
    else if e.id in s.seen then s.(warns := s.warns + [DuplicateId(e.id)])
    else
      var route := Resolve(c, e);
      var t := s.(seen := s.seen + {e.id}, warns := s.warns + route.2);
      if !Enabled(c, route.0) then Exclude(t, e.id, ProtocolDisabled(route.0))
      else if Escapes(c, route.1) then Exclude(t, e.id, EscapesHost)
      else Admit(t, RecordOf(c, e))
  }

  function Empty(extra: seq<Warning>): Snapshot { Snapshot([], map[], [], extra, {}) }

  function Build(c: Config, entries: seq<Entry>, extra: seq<Warning>): Snapshot {
    if entries == [] then Empty(extra) else Take(c, Build(c, entries[..|entries| - 1], extra), entries[|entries| - 1])
  }

  // ---- what should become of each entry ----

  datatype Fate = Routable(rec: Record) | Excluded(why: Unsupported) | Duplicate

  ghost predicate SeenBefore(entries: seq<Entry>, i: nat)
    requires i < |entries|
  {
    exists j :: 0 <= j < i && entries[j].id == entries[i].id
  }

  /** Some earlier entry is routable under upstream id `id`. */
  ghost predicate TakenUpstream(c: Config, entries: seq<Entry>, i: nat, id: string)
    requires i <= |entries|
    decreases i, 0
  {
    exists j :: 0 <= j < i && FateOf(c, entries, j).Routable? && entries[j].id == id
  }

  /** Some earlier entry is routable under public id `id`. */
  ghost predicate TakenPublic(c: Config, entries: seq<Entry>, i: nat, id: string)
    requires i <= |entries|
    decreases i, 0
  {
    exists j :: 0 <= j < i && FateOf(c, entries, j).Routable? && PublicId(c, entries[j].id) == id
  }

  /** Every entry is exactly one of routable, excluded or a duplicate; the first in
      catalog order keeps a contested identifier. */
  ghost function FateOf(c: Config, entries: seq<Entry>, i: nat): Fate
    requires i < |entries|
    decreases i, 1
  {
    var e := entries[i];
    if e.id == "" then Excluded(Unsupported("", MissingId))
    else if SeenBefore(entries, i) then Duplicate
    else if !Enabled(c, Resolve(c, e).0) then Excluded(Unsupported(e.id, ProtocolDisabled(Resolve(c, e).0)))
    else if Escapes(c, Resolve(c, e).1) then Excluded(Unsupported(e.id, EscapesHost))
    else if TakenUpstream(c, entries, i, PublicId(c, e.id)) then Excluded(Unsupported(e.id, Collision(PublicId(c, e.id), PublicId(c, e.id))))
    else if TakenPublic(c, entries, i, e.id) then Excluded(Unsupported(e.id, Collision(e.id, e.id)))
    else Routable(RecordOf(c, e))
  }

  /** Which entries are routable, and as what record: an override names the route
      and may name the endpoint, the route must be on and the endpoint must stay on
      the host, and both identifiers must still be free. */
  lemma {:induction false} RoutableExactly(c: Config, entries: seq<Entry>, i: nat)
    requires i < |entries|
    ensures var e, fate := entries[i], FateOf(c, entries, i);
            var route := if e.id in c.overrides then c.overrides[e.id].protocol else "chat-completions";
            var endpoint := if e.id in c.overrides then c.overrides[e.id].endpoint else "";
            var public := (if c.prefix.Some? then c.prefix.value + "/" else "") + e.id;
            && (fate.Routable? <==>
                  && e.id != "" && (forall j :: 0 <= j < i ==> entries[j].id != e.id)
                  && (route == "chat-completions" ==> c.chat) && (route == "messages" ==> c.messages) && (route == "responses" ==> c.responses)
                  && (endpoint != "" ==> !c.escapes(endpoint))
                  && !TakenUpstream(c, entries, i, public) && !TakenPublic(c, entries, i, e.id))
            && (fate.Routable? ==>
                  var rec := fate.rec;
                  && rec.publicId == public && rec.upstreamId == e.id && rec.displayName == (if e.displayName != "" then e.displayName else e.id)
                  && rec.protocol == route
                  && rec.endpoint == (if endpoint != "" then endpoint
                                      else match route
                                           case "chat-completions" => "/v1/chat/completions"
                                           case "messages" => "/v1/messages"
                                           case "responses" => "/v1/responses"
                                           case _ => "")
                  && rec.contextLimit == e.contextLength && rec.outputLimit == e.maxOutputTokens
                  && rec.inputModes == (if e.inputModes != [] then e.inputModes else e.inputModalities)
                  && rec.outputModes == (if e.outputModes != [] then e.outputModes else e.outputModalities))
  {
    hide TakenUpstream, TakenPublic;
    assert "" + entries[i].id == entries[i].id;
  }

  ghost function RoutableUpTo(c: Config, entries: seq<Entry>, n: nat): seq<Record>
    requires n <= |entries|
  {
    if n == 0 then []
    else
      var fate := FateOf(c, entries, n - 1);
      RoutableUpTo(c, entries, n - 1) + (if fate.Routable? then [fate.rec] else [])
  }

  ghost function ExcludedUpTo(c: Config, entries: seq<Entry>, n: nat): seq<Unsupported>
    requires n <= |entries|
  {
    if n == 0 then []
    else
      var fate := FateOf(c, entries, n - 1);
      ExcludedUpTo(c, entries, n - 1) + (if fate.Excluded? then [fate.why] else [])
  }

  ghost function DuplicatesUpTo(c: Config, entries: seq<Entry>, n: nat): seq<string>
    requires n <= |entries|
  {
    if n == 0 then []
    else
      DuplicatesUpTo(c, entries, n - 1) + (if FateOf(c, entries, n - 1).Duplicate? then [entries[n - 1].id] else [])
  }

  /** The duplicates a warning list reports, in order. */
  function DuplicatesIn(warns: seq<Warning>): seq<string> {
    if warns == [] then []
    else
      var last := warns[|warns| - 1];
      DuplicatesIn(warns[..|warns| - 1]) + (if last.DuplicateId? then [last.id] else [])
  }

  lemma {:induction false} DuplicatesAppend(warns: seq<Warning>, w: Warning)
    ensures DuplicatesIn(warns + [w]) == DuplicatesIn(warns) + (if w.DuplicateId? then [w.id] else [])
  {
    assert (warns + [w])[..|warns|] == warns;
  }

  // ---- the index ----

  predicate Holds(rec: Record, id: string) { rec.publicId == id || rec.upstreamId == id }

  /** The first record holding the identifier, by linear scan. */
  function Scan(models: seq<Record>, id: string): Option<Record> {
    if models == [] then None else if Holds(models[0], id) then Some(models[0]) else Scan(models[1..], id)
  }

  function LookupIn(index: map<string, Record>, id: string): Option<Record> { if id in index then Some(index[id]) else None }

  ghost predicate PublicNames(c: Config, s: Snapshot) {
    forall i :: 0 <= i < |s.models| ==> s.models[i].publicId == PublicId(c, s.models[i].upstreamId) && s.models[i].upstreamId in s.seen
  }

  /** No identifier is held by two records. */
  ghost predicate Unambiguous(models: seq<Record>) {
    forall i, j, id :: 0 <= i < |models| && 0 <= j < |models| && Holds(models[i], id) && Holds(models[j], id) ==> i == j
  }

  /** The index holds exactly the identifiers of the models, each for its record. */
  ghost predicate IndexExact(s: Snapshot) {
    && (forall i, id :: 0 <= i < |s.models| && Holds(s.models[i], id) ==> id in s.index && s.index[id] == s.models[i])
    && (forall id :: id in s.index ==> s.index[id] in s.models && Holds(s.index[id], id))
  }

  lemma {:induction false} ScanFinds(models: seq<Record>, id: string, i: nat)
    requires Unambiguous(models) && i < |models| && Holds(models[i], id)
    ensures Scan(models, id) == Some(models[i])
  {
    if i == 0 {
    } else {
      assert Holds(models[0], id) ==> i == 0;
      assert Unambiguous(models[1..]);
      ScanFinds(models[1..], id, i - 1);
    }
  }

  lemma {:induction false} ScanMisses(models: seq<Record>, id: string)
    requires forall i :: 0 <= i < |models| ==> !Holds(models[i], id)
    ensures Scan(models, id) == None
  {
    if models == [] {
    } else {
      ScanMisses(models[1..], id);
    }
  }

  /** The lookup agrees with a linear scan on every identifier. */
  lemma {:induction false} LookupIsScan(s: Snapshot, id: string)
    requires Unambiguous(s.models) && IndexExact(s)
    ensures LookupIn(s.index, id) == Scan(s.models, id)
  {
    if id in s.index {
      var i :| 0 <= i < |s.models| && s.models[i] == s.index[id];
      ScanFinds(s.models, id, i);
    } else {
      ScanMisses(s.models, id);
    }
  }

  lemma {:induction false} PublicIdInjective(c: Config, a: string, b: string)
    requires PublicId(c, a) == PublicId(c, b)
    ensures a == b
  {
    if c.prefix.Some? {
      var p := c.prefix.value + "/";
      assert (p + a)[|p|..] == a && (p + b)[|p|..] == b;
    }
  }

  /** A taken slot is always held through the other role, so the collision message
      names the contested identifier on both sides. */
  lemma {:induction false} ClashIsCrossRole(c: Config, s: Snapshot, rec: Record)
    requires PublicNames(c, s) && IndexExact(s)
    requires rec.publicId == PublicId(c, rec.upstreamId) && rec.upstreamId !in s.seen
    ensures rec.publicId in s.index ==> s.index[rec.publicId].upstreamId == rec.publicId
    ensures rec.upstreamId in s.index ==> s.index[rec.upstreamId].publicId == rec.upstreamId
  {
    if rec.publicId in s.index {
      var other := s.index[rec.publicId];
      var i :| 0 <= i < |s.models| && s.models[i] == other;
      if other.publicId == rec.publicId {
        PublicIdInjective(c, other.upstreamId, rec.upstreamId);
      }
    }
    if rec.upstreamId in s.index {
      var other := s.index[rec.upstreamId];
      var i :| 0 <= i < |s.models| && s.models[i] == other;
    }
  }

  // ---- the snapshot is the fates ----

  ghost predicate SeenExact(s: Snapshot, entries: seq<Entry>, n: nat)
    requires n <= |entries|
  {
    forall id :: id in s.seen <==> id != "" && exists j :: 0 <= j < n && entries[j].id == id
  }

  ghost predicate Sound(c: Config, s: Snapshot) {
    PublicNames(c, s) && Unambiguous(s.models) && IndexExact(s)
  }

  /** The models are exactly the routable entries. */
  ghost predicate Faithful(c: Config, s: Snapshot, entries: seq<Entry>, n: nat)
    requires n <= |entries|
  {
    && s.models == RoutableUpTo(c, entries, n)
    && s.unsup == ExcludedUpTo(c, entries, n)
    && DuplicatesIn(s.warns) == DuplicatesUpTo(c, entries, n)
  }

  /** The routable entry an identifier is taken by is a model, and conversely. */
  lemma {:induction false} RoutableHas(c: Config, entries: seq<Entry>, n: nat, id: string)
    requires n <= |entries|
    ensures TakenUpstream(c, entries, n, id) <==> HasUpstream(RoutableUpTo(c, entries, n), id)
    ensures TakenPublic(c, entries, n, id) <==> HasPublic(RoutableUpTo(c, entries, n), id)
  {
    hide FateOf, HasUpstream, HasPublic;
    if n == 0 {
      assert !HasUpstream([], id) && !HasPublic([], id) by {
        HasAppend([], Record("", "", "", "", "", 0, 0, [], []), id);
      }
    } else {
      RoutableHas(c, entries, n - 1, id);
      TakenStep(c, entries, n - 1, id);
      var fate := FateOf(c, entries, n - 1);
      assert RoutableUpTo(c, entries, n - 1) + [] == RoutableUpTo(c, entries, n - 1);
      if fate.Routable? {
        RoutableIsOwn(c, entries, n - 1);
        HasAppend(RoutableUpTo(c, entries, n - 1), fate.rec, id);
      }
    }
  }

  predicate HasUpstream(models: seq<Record>, id: string) { exists k :: 0 <= k < |models| && models[k].upstreamId == id }

  predicate HasPublic(models: seq<Record>, id: string) { exists k :: 0 <= k < |models| && models[k].publicId == id }

  lemma {:induction false} HasAppend(models: seq<Record>, rec: Record, id: string)
    ensures HasUpstream(models + [rec], id) <==> HasUpstream(models, id) || rec.upstreamId == id
    ensures HasPublic(models + [rec], id) <==> HasPublic(models, id) || rec.publicId == id
    ensures !HasUpstream([], id) && !HasPublic([], id)
  {
    var more := models + [rec];
    assert more[|models|] == rec;
    assert forall k :: 0 <= k < |models| ==> more[k] == models[k];
  }

  lemma {:induction false} RoutableIsOwn(c: Config, entries: seq<Entry>, n: nat)
    requires n < |entries| && FateOf(c, entries, n).Routable?
    ensures FateOf(c, entries, n).rec == RecordOf(c, entries[n])
  {
  }

  lemma {:induction false} TakenStep(c: Config, entries: seq<Entry>, n: nat, id: string)
    requires n < |entries|
    ensures TakenUpstream(c, entries, n + 1, id)
            <==> TakenUpstream(c, entries, n, id) || (FateOf(c, entries, n).Routable? && entries[n].id == id)
    ensures TakenPublic(c, entries, n + 1, id)
            <==> TakenPublic(c, entries, n, id) || (FateOf(c, entries, n).Routable? && PublicId(c, entries[n].id) == id)
  {
    hide FateOf, PublicId;
  }

  /** An admitted record holds no identifier already in the index. */
  predicate Free(s: Snapshot, rec: Record) { rec.publicId !in s.index && rec.upstreamId !in s.index }

  lemma {:induction false} AdmitUnambiguous(s: Snapshot, rec: Record)
    requires Unambiguous(s.models) && IndexExact(s) && Free(s, rec)
    ensures Unambiguous(s.models + [rec])
  {
    var models, n := s.models + [rec], |s.models|;
    forall i, j, id | 0 <= i < |models| && 0 <= j < |models| && Holds(models[i], id) && Holds(models[j], id)
      ensures i == j
    {
      assert i < n ==> models[i] == s.models[i];
      assert j < n ==> models[j] == s.models[j];
    }
  }

  lemma {:induction false} AdmitIndexes(s: Snapshot, rec: Record)
    requires IndexExact(s) && Free(s, rec)
    ensures IndexExact(Admit(s, rec))
  {
    var t, n := Admit(s, rec), |s.models|;
    assert t.models[n] == rec;
    forall i, id | 0 <= i < |t.models| && Holds(t.models[i], id)
      ensures id in t.index && t.index[id] == t.models[i]
    {
      if i < n {
        assert t.models[i] == s.models[i];
        assert id in s.index;
      }
    }
    forall id | id in t.index
      ensures t.index[id] in t.models && Holds(t.index[id], id)
    {
      if t.index[id] != rec {
        assert id in s.index;
      }
    }
  }

  lemma {:induction false} AdmitSound(c: Config, s: Snapshot, rec: Record)
    requires Sound(c, s) && rec.publicId == PublicId(c, rec.upstreamId) && rec.upstreamId in s.seen
    ensures Sound(c, Admit(s, rec))
  {
    hide PublicId, Holds, IndexExact, Unambiguous;
    if Free(s, rec) {
      AdmitUnambiguous(s, rec);
      AdmitIndexes(s, rec);
    } else {
      SameIndex(s, Admit(s, rec));
    }
  }

  lemma {:induction false} SameIndex(s: Snapshot, t: Snapshot)
    requires IndexExact(s) && t.models == s.models && t.index == s.index
    ensures IndexExact(t)
  {
  }

  /** Reading one entry gives it the fate the catalog order dictates. */
  lemma {:induction false} TakeKeeps(c: Config, s: Snapshot, entries: seq<Entry>, n: nat)
    requires n < |entries| && Sound(c, s) && SeenExact(s, entries, n) && Faithful(c, s, entries, n)
    ensures var t := Take(c, s, entries[n]);
            Sound(c, t) && SeenExact(t, entries, n + 1) && Faithful(c, t, entries, n + 1)
  {
    hide RoutableUpTo, ExcludedUpTo, DuplicatesUpTo, DuplicatesIn, Unambiguous, IndexExact, PublicNames, FateOf, SeenExact;
    TakeIsFate(c, s, entries, n);
    TakeSees(c, s, entries, n);
    TakeSound(c, s, entries[n]);
    UpToSteps(c, entries, n);
  }

  lemma {:induction false} UpToSteps(c: Config, entries: seq<Entry>, n: nat)
    requires n < |entries|
    ensures var fate := FateOf(c, entries, n);
            && RoutableUpTo(c, entries, n + 1) == RoutableUpTo(c, entries, n) + (if fate.Routable? then [fate.rec] else [])
            && ExcludedUpTo(c, entries, n + 1) == ExcludedUpTo(c, entries, n) + (if fate.Excluded? then [fate.why] else [])
            && DuplicatesUpTo(c, entries, n + 1) == DuplicatesUpTo(c, entries, n) + (if fate.Duplicate? then [entries[n].id] else [])
  {
  }

  lemma {:induction false} TakeSees(c: Config, s: Snapshot, entries: seq<Entry>, n: nat)
    requires n < |entries| && SeenExact(s, entries, n)
    ensures SeenExact(Take(c, s, entries[n]), entries, n + 1)
  {
    var t := Take(c, s, entries[n]);
    assert t.seen == if entries[n].id == "" then s.seen else s.seen + {entries[n].id};
    forall id
      ensures id in t.seen <==> id != "" && exists j :: 0 <= j < n + 1 && entries[j].id == id
    {
      if id in s.seen {
        var j :| 0 <= j < n && entries[j].id == id;
      }
    }
  }

  lemma {:induction false} TakeSound(c: Config, s: Snapshot, e: Entry)
    requires Sound(c, s)
    ensures Sound(c, Take(c, s, e))
  {
    hide Admit, Enabled, Escapes, Resolve, RecordOf, Unambiguous;
    var route := Resolve(c, e);
    var t := s.(seen := s.seen + {e.id}, warns := s.warns + route.2);
    assert Sound(c, t);
    RecordIds(c, e);
    AdmitSound(c, t, RecordOf(c, e));
  }

  lemma {:induction false} RecordIds(c: Config, e: Entry)
    ensures RecordOf(c, e).publicId == PublicId(c, e.id) && RecordOf(c, e).upstreamId == e.id
  {
  }

  /** The part of TakeKeeps about one entry: what it adds to each list. */
  lemma {:induction false} TakeIsFate(c: Config, s: Snapshot, entries: seq<Entry>, n: nat)
    requires n < |entries| && Sound(c, s) && SeenExact(s, entries, n) && Faithful(c, s, entries, n)
    ensures var t, fate := Take(c, s, entries[n]), FateOf(c, entries, n);
            && t.models == s.models + (if fate.Routable? then [fate.rec] else [])
            && t.unsup == s.unsup + (if fate.Excluded? then [fate.why] else [])
            && DuplicatesIn(t.warns) == DuplicatesIn(s.warns) + (if fate.Duplicate? then [entries[n].id] else [])
  {
    hide RoutableUpTo, ExcludedUpTo, DuplicatesUpTo, DuplicatesIn, Unambiguous, Enabled, Escapes, RecordOf, PublicId;
    var e := entries[n];
    if e.id == "" {
    } else if e.id in s.seen {
      assert SeenBefore(entries, n);
      DuplicatesAppend(s.warns, DuplicateId(e.id));
    } else {
      assert !SeenBefore(entries, n);
      QuietWarnings(s.warns, Resolve(c, e).2);
      var t := s.(seen := s.seen + {e.id}, warns := s.warns + Resolve(c, e).2);
      if Enabled(c, Resolve(c, e).0) && !Escapes(c, Resolve(c, e).1) {
        AdmitIsFate(c, s, t, entries, n);
      }
    }
  }

  lemma {:induction false} QuietWarnings(warns: seq<Warning>, more: seq<Warning>)
    requires |more| <= 1 && (more != [] ==> !more[0].DuplicateId?)
    ensures DuplicatesIn(warns + more) == DuplicatesIn(warns)
  {
    if more == [] {
      assert warns + more == warns;
    } else {
      assert warns + more == warns + [more[0]];
      DuplicatesAppend(warns, more[0]);
    }
  }

  lemma {:induction false} AdmitIsFate(c: Config, s: Snapshot, t: Snapshot, entries: seq<Entry>, n: nat)
    requires n < |entries| && Sound(c, s) && Faithful(c, s, entries, n)
    requires t.models == s.models && t.index == s.index && t.unsup == s.unsup
    requires entries[n].id != "" && !SeenBefore(entries, n) && entries[n].id !in s.seen
    requires Enabled(c, Resolve(c, entries[n]).0) && !Escapes(c, Resolve(c, entries[n]).1)
    ensures var a, fate := Admit(t, RecordOf(c, entries[n])), FateOf(c, entries, n);
            && a.models == s.models + (if fate.Routable? then [fate.rec] else [])
            && a.unsup == s.unsup + (if fate.Excluded? then [fate.why] else [])
            && DuplicatesIn(a.warns) == DuplicatesIn(t.warns) && !fate.Duplicate?
  {
    hide RoutableUpTo, ExcludedUpTo, DuplicatesUpTo, DuplicatesIn, Unambiguous, Enabled, Escapes, RecordOf, PublicId, PublicNames;
    var e, rec := entries[n], RecordOf(c, entries[n]);
    RecordIds(c, e);
    RoutableHas(c, entries, n, rec.publicId);
    RoutableHas(c, entries, n, rec.upstreamId);
    ClashIsCrossRole(c, s, rec);
    IndexHolds(s, rec.publicId);
    IndexHolds(s, rec.upstreamId);
    SlotTaken(c, s, rec);
    hide IndexExact;
    if rec.publicId in s.index {
      QuietWarnings(t.warns, [Clash(Collision(rec.publicId, s.index[rec.publicId].upstreamId))]);
    } else if rec.upstreamId in s.index {
      QuietWarnings(t.warns, [Clash(Collision(s.index[rec.upstreamId].publicId, rec.upstreamId))]);
    }
  }

  lemma {:induction false} IndexHolds(s: Snapshot, id: string)
    requires IndexExact(s)
    ensures id in s.index <==> exists k :: 0 <= k < |s.models| && Holds(s.models[k], id)
  {
  }

  /** For a new upstream id, its public slot is taken only as an upstream id, and its
      upstream slot only as a public id. */
  lemma {:induction false} SlotTaken(c: Config, s: Snapshot, rec: Record)
    requires PublicNames(c, s) && IndexExact(s)
    requires rec.publicId == PublicId(c, rec.upstreamId) && rec.upstreamId !in s.seen
    ensures rec.publicId in s.index <==> HasUpstream(s.models, rec.publicId)
    ensures rec.upstreamId in s.index <==> HasPublic(s.models, rec.upstreamId)
  {
    hide PublicId;
    ClashIsCrossRole(c, s, rec);
    IndexHolds(s, rec.publicId);
    IndexHolds(s, rec.upstreamId);
    if rec.publicId in s.index {
      assert s.index[rec.publicId] in s.models;
    }
    if rec.upstreamId in s.index {
      assert s.index[rec.upstreamId] in s.models;
    }
  }

  /** For every entry list: the snapshot is sound, and its lists are the fates of the
      entries in catalog order. */
  lemma {:induction false} BuildIsFates(c: Config, entries: seq<Entry>, extra: seq<Warning>, n: nat)
    requires n <= |entries| && DuplicatesIn(extra) == []
    ensures var s := Build(c, entries[..n], extra);
            Sound(c, s) && SeenExact(s, entries, n) && Faithful(c, s, entries, n)
  {
    hide Take, Sound, SeenExact, Faithful;
    if n == 0 {
      assert Sound(c, Empty(extra)) && SeenExact(Empty(extra), entries, 0) && Faithful(c, Empty(extra), entries, 0) by {
        EmptyIsSound(c, entries, extra);
      }
    } else {
      BuildIsFates(c, entries, extra, n - 1);
      TakeKeeps(c, Build(c, entries[..n - 1], extra), entries, n - 1);
      assert entries[..n][..n - 1] == entries[..n - 1];
    }
  }

  lemma {:induction false} EmptyIsSound(c: Config, entries: seq<Entry>, extra: seq<Warning>)
    requires DuplicatesIn(extra) == []
    ensures Sound(c, Empty(extra)) && SeenExact(Empty(extra), entries, 0) && Faithful(c, Empty(extra), entries, 0)
  {
  }

  /** Every input entry lands in exactly one list. */
  lemma {:induction false} EveryEntryOnce(c: Config, entries: seq<Entry>, n: nat)
    requires n <= |entries|
    ensures |RoutableUpTo(c, entries, n)| + |ExcludedUpTo(c, entries, n)| + |DuplicatesUpTo(c, entries, n)| == n
  {
    hide FateOf;
    if n == 0 {
    } else {
      EveryEntryOnce(c, entries, n - 1);
      var fate := FateOf(c, entries, n - 1);
      assert fate.Routable? || fate.Excluded? || fate.Duplicate?;
    }
  }

  /** Without a prefix no identifier is ever contested. */
  lemma {:induction false} NoPrefixNoCollision(c: Config, entries: seq<Entry>, i: nat)
    requires c.prefix.None? && i < |entries|
    ensures FateOf(c, entries, i).Excluded? ==> !FateOf(c, entries, i).why.reason.Collision?
  {
    var id := entries[i].id;
    if !SeenBefore(entries, i) {
      assert forall j :: 0 <= j < i ==> entries[j].id != id;
      assert !TakenUpstream(c, entries, i, id) && !TakenPublic(c, entries, i, id);
    }
  }

  /** After any build: whatever record holds an identifier, the lookup finds it and
      it is the only one; otherwise the lookup fails as the scan does. */
  lemma {:induction false} LookupAfterBuild(c: Config, entries: seq<Entry>, extra: seq<Warning>, id: string)
    requires DuplicatesIn(extra) == []
    ensures var s := Build(c, entries, extra);
            && LookupIn(s.index, id) == Scan(s.models, id)
            && (forall i :: 0 <= i < |s.models| && Holds(s.models[i], id) ==> LookupIn(s.index, id) == Some(s.models[i]))
  {
    hide Build, Holds;
    assert entries[..|entries|] == entries;
    BuildIsFates(c, entries, extra, |entries|);
    var s := Build(c, entries, extra);
    LookupIsScan(s, id);
    forall i | 0 <= i < |s.models| && Holds(s.models[i], id)
      ensures LookupIn(s.index, id) == Some(s.models[i])
    {
      ScanFinds(s.models, id, i);
    }
  }
}
/** The manager object: it owns one snapshot, replaced whole by every swap. */
module CatalogManager {
  import opened Common
  import opened Catalog

  /** What a fetch of the catalog comes to. */
  datatype Decoded = Garbage | Missing | Entries(entries: seq<Entry>)

  datatype Reply = Unreachable | Response(length: int, status: int, body: Decoded)

  datatype Failure = NoClient | NetworkError | TooLarge | BadStatus(status: int) | InvalidJson

  const BUDGET_FLOOR := 16 * 1024 * 1024
  const MISSING_DATA := "upstream catalog response missing \"data\" field"

  function Budget(c: Config): int { if c.maxResponseBytes > BUDGET_FLOOR then c.maxResponseBytes else BUDGET_FLOOR }

  /** What a refresh reports, the first of these that applies: no client, no answer,
      an answer over the larger of 16 MiB and the configured limit, a status other
      than 200, a body that is no JSON. */
  ghost predicate Reports(c: Config, hasClient: bool, reply: Reply, failure: Option<Failure>) {
    if !hasClient then failure == Some(NoClient)
    else
      match reply
      case Unreachable => failure == Some(NetworkError)
      case Response(length, status, body) =>
        && (failure == Some(TooLarge) <==> length > 16_777_216 && length > c.maxResponseBytes)
        && (failure.Some? && failure.value.BadStatus? <==> failure != Some(TooLarge) && status != 200)
        && (failure.Some? && failure.value.BadStatus? ==> failure.value.status == status)
        && (failure == Some(InvalidJson) <==> failure != Some(TooLarge) && status == 200 && body.Garbage?)
        && (failure.None? <==> failure != Some(TooLarge) && status == 200 && !body.Garbage?)
  }

  class Manager {
    const cfg: Config
    const hasClient: bool
    var raw: seq<Entry>
    var models: seq<Record>
    var index: map<string, Record>
    var unsup: seq<Unsupported>
    var warns: seq<Warning>

    /** The manager serves what its own config makes of its raw entries. */
    ghost predicate Serves(entries: seq<Entry>, extra: seq<Warning>)
      reads this
    {
      var s := Build(cfg, entries, extra);
      raw == entries && models == s.models && index == s.index && unsup == s.unsup && warns == s.warns
    }

    /** No identifier is held twice, and the index is exact. */
    ghost predicate Valid()
      reads this
    {
      Unambiguous(models) && IndexExact(Snapshot(models, index, [], [], {}))
    }

    constructor (cfg: Config, hasClient: bool)
      ensures this.cfg == cfg && this.hasClient == hasClient && Serves([], []) && Valid()
    {
      this.cfg, this.hasClient := cfg, hasClient;
      raw, models, index, unsup, warns := [], [], map[], [], [];
    }

    /** Builds the snapshot entry by entry and installs it. */
    method Swap(entries: seq<Entry>, extra: seq<Warning>)
      requires DuplicatesIn(extra) == []
      modifies this
      ensures Serves(entries, extra) && Valid()
    {
      hide RecordOf, PublicId, Enabled, Resolve, Unambiguous, IndexExact, PublicNames, FateOf, RoutableUpTo;
      var newModels: seq<Record>, newIndex: map<string, Record>, newUnsup: seq<Unsupported>, newWarns := [], map[], [], extra;
      var seen: set<string> := {};
      for i := 0 to |entries|
        invariant Snapshot(newModels, newIndex, newUnsup, newWarns, seen) == Build(cfg, entries[..i], extra)
      {
        var e := entries[i];
        assert entries[..i + 1][..i] == entries[..i];
        if e.id == "" {
          newUnsup := newUnsup + [Unsupported("", MissingId)];
          continue;
        }
        if e.id in seen {
          newWarns := newWarns + [DuplicateId(e.id)];
          continue;
        }
        seen := seen + {e.id};
        var route, endpoint, notice := ResolveEntry(e);
        newWarns := newWarns + notice;
        if !Enabled(cfg, route) {
          newUnsup := newUnsup + [Unsupported(e.id, ProtocolDisabled(route))];
          continue;
        }
        if endpoint != "" && cfg.escapes(endpoint) {
          newUnsup := newUnsup + [Unsupported(e.id, EscapesHost)];
          continue;
        }
        var rec := RecordOf(cfg, e);
        RecordIds(cfg, e);
        if rec.publicId in newIndex {
          var reason := Collision(rec.publicId, newIndex[rec.publicId].upstreamId);
          newWarns := newWarns + [Clash(reason)];
          newUnsup := newUnsup + [Unsupported(e.id, reason)];
          continue;
        }
        if rec.upstreamId in newIndex {
          var reason := Collision(newIndex[rec.upstreamId].publicId, rec.upstreamId);
          newWarns := newWarns + [Clash(reason)];
          newUnsup := newUnsup + [Unsupported(e.id, reason)];
          continue;
        }
        newModels := newModels + [rec];
        newIndex := newIndex[rec.publicId := rec];
        newIndex := newIndex[rec.upstreamId := rec];
      }
      assert entries[..|entries|] == entries;
      BuildIsFates(cfg, entries, extra, |entries|);
      SameIndex(Build(cfg, entries, extra), Snapshot(newModels, newIndex, [], [], {}));
      raw, models, index, unsup, warns := entries, newModels, newIndex, newUnsup, newWarns;
    }

    method ResolveEntry(e: Entry) returns (route: string, endpoint: string, notice: seq<Warning>)
      ensures (route, endpoint, notice) == Resolve(cfg, e)
    {
      if e.id in cfg.overrides {
        var o := cfg.overrides[e.id];
        return o.protocol, o.endpoint, [Overridden(e.id, o)];
      }
      return CHAT, "", [];
    }

    /** The stale policy: keep serving, or clear the index with the models. */
    method Fail()
      requires Valid()
      modifies this
      ensures Valid()
      ensures cfg.staleWhileUnavailable ==> unchanged(this)
      ensures !cfg.staleWhileUnavailable ==> Serves([], [])
    {
      if !cfg.staleWhileUnavailable {
        raw, models, index, unsup, warns := [], [], map[], [], [];
      }
    }

    /** One refresh: it either installs what the reply decodes to, or applies the
        stale policy and reports why. A body without data is an empty catalog. */
    method Refresh(reply: Reply) returns (failure: Option<Failure>)
      requires Valid()
      modifies this
      ensures Valid() && Reports(cfg, hasClient, reply, failure)
      ensures failure.None? && reply.body.Entries? ==> Serves(reply.body.entries, [])
      ensures failure.None? && reply.body.Missing? ==> Serves([], [Notice("upstream catalog response missing \"data\" field")])
      ensures failure.Some? && cfg.staleWhileUnavailable ==> unchanged(this)
      ensures failure.Some? && !cfg.staleWhileUnavailable ==> Serves([], [])
    {
      failure := None;
      if !hasClient {
        failure := Some(NoClient);
      } else if reply.Unreachable? {
        failure := Some(NetworkError);
      } else if reply.length > Budget(cfg) {
        failure := Some(TooLarge);
      } else if reply.status != 200 {
        failure := Some(BadStatus(reply.status));
      } else if reply.body.Garbage? {
        failure := Some(InvalidJson);
      }
      if failure.Some? {
        Fail();
        return;
      }
      match reply.body {
        case Missing => Swap([], [Notice(MISSING_DATA)]);
        case Entries(entries) => Swap(entries, []);
      }
    }

    /** Rebuilds from another manager's raw entries under this manager's own config. */
    method SeedFrom(prev: Manager)
      modifies this
      ensures Serves(old(prev.raw), []) && Valid()
    {
      var entries := prev.raw;
      Swap(entries, []);
    }

    /** The record holding the identifier, exactly as a linear scan of the models
        would find it. */
    method Lookup(id: string) returns (rec: Option<Record>)
      requires Valid()
      ensures rec == Scan(models, id)
      ensures forall i :: 0 <= i < |models| && Holds(models[i], id) ==> rec == Some(models[i])
    {
      LookupIsScan(Snapshot(models, index, [], [], {}), id);
      forall i | 0 <= i < |models| && Holds(models[i], id)
        ensures Scan(models, id) == Some(models[i])
      {
        ScanFinds(models, id, i);
      }
      rec := if id in index then Some(index[id]) else None;
    }
  }
}
