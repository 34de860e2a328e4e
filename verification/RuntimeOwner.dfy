/** Which container an accepted connection belongs to: one scan of the whole listing, between
    two readings of everything that could have changed, holding a handle on every process it
    might have to answer for and giving every one of them back. */
module RuntimeOwner {
  import opened Outcomes

  // --------------------------------------------------------------------------- cgroup paths

  /** The text between slashes. */
  function Split(text: string): (parts: seq<string>)
    ensures parts != []
    ensures forall i :: 0 <= i < |parts| ==> '/' !in parts[i]
  {
    if text == "" then [""]
    else
      var rest := Split(text[1..]);
      if text[0] == '/' then [""] + rest else [[text[0]] + rest[0]] + rest[1..]
  }

  predicate PartOk(part: string) {
    part != "" && part != "." && part != ".." && '\0' !in part && '\r' !in part && '\n' !in part
  }

  /** One normalized absolute path, the hierarchy's root included. */
  predicate ValidPath(path: string) {
    || path == "/"
    || (path != "" && path[0] == '/'
        && forall i :: 0 <= i < |Split(path[1..])| ==> PartOk(Split(path[1..])[i]))
  }

  function Parts(path: string): (parts: seq<string>)
    requires ValidPath(path)
    ensures parts == [] <==> path == "/"
  {
    if path == "/" then [] else Split(path[1..])
  }

  datatype Relation = Equal | Ancestor

  /** How a process's cgroup stands to another's, by whole components. The root stands to
      nothing: it contains every process there is. */
  function CgroupRelation(ancestor: string, descendant: string): Option<Relation> {
    if !ValidPath(ancestor) || !ValidPath(descendant) || ancestor == "/" || descendant == "/" then None
    else if Parts(ancestor) == Parts(descendant) then Some(Equal)
    else if |Parts(ancestor)| < |Parts(descendant)| && Parts(descendant)[..|Parts(ancestor)|] == Parts(ancestor) then
      Some(Ancestor)
    else None
  }

  function Join(parts: seq<string>): string {
    if parts == [] then "" else "/" + parts[0] + Join(parts[1..])
  }

  lemma SlashMoves(c: char, a: string, b: string)
    ensures "/" + ([c] + a) + b == "/" + [c] + ("/" + a + b)[1..]
  {
    assert ("/" + a + b)[1..] == a + b;
  }

  lemma JoinStep(parts: seq<string>)
    requires parts != []
    ensures Join(parts) == "/" + parts[0] + Join(parts[1..])
  {
  }

  lemma JoinGrowsHead(c: char, rest: seq<string>)
    requires rest != []
    ensures Join([[c] + rest[0]] + rest[1..]) == "/" + [c] + Join(rest)[1..]
  {
    var parts := [[c] + rest[0]] + rest[1..];
    assert parts[1..] == rest[1..];
    JoinStep(parts);
    JoinStep(rest);
    hide Join;
    SlashMoves(c, rest[0], Join(rest[1..]));
  }

  lemma JoinGrowsSlash(rest: seq<string>)
    ensures Join([""] + rest) == "/" + Join(rest)
  {
    assert ([""] + rest)[1..] == rest;
    assert "/" + "" + Join(rest) == "/" + Join(rest);
  }

  lemma {:induction false} JoinInvertsSplit(text: string)
    ensures Join(Split(text)) == "/" + text
    decreases |text|
  {
    if text != "" {
      var tail := text[1..];
      var rest := Split(tail);
      JoinInvertsSplit(tail);
      assert Split(text) == if text[0] == '/' then [""] + rest else [[text[0]] + rest[0]] + rest[1..];
      hide Split, Join;
      JoinGrowsSlash(rest);
      JoinGrowsHead(text[0], rest);
      assert ("/" + tail)[1..] == tail;
      assert text == [text[0]] + tail;
    }
  }

  lemma PathIsItsParts(path: string)
    requires ValidPath(path) && path != "/"
    ensures path == Join(Parts(path))
  {
    JoinInvertsSplit(path[1..]);
    assert path == "/" + path[1..];
  }

  /** A component: something, not a dot nor two, and nothing in it that a path or a line ends at. */
  predicate Component(part: string) {
    part !in {"", ".", ".."} && forall i :: 0 <= i < |part| ==> part[i] !in {'/', '\0', '\r', '\n'}
  }

  /** The paths that are accepted are the root and the joins of one component or more. */
  lemma ValidIsJoined(path: string)
    ensures ValidPath(path)
            <==> path == "/"
                 || exists parts :: JoinsTo(parts, path) && forall i :: 0 <= i < |parts| ==> Component(parts[i])
  {
    if ValidPath(path) && path != "/" {
      PathIsItsParts(path);
      assert JoinsTo(Parts(path), path);
      assert forall i :: 0 <= i < |Parts(path)| ==> Component(Parts(path)[i]);
    }
    hide Split, Join;
    if parts :| JoinsTo(parts, path) && forall i :: 0 <= i < |parts| ==> Component(parts[i]) {
      SplitInvertsJoin(parts);
      JoinStep(parts);
      assert path[0] == '/' && Split(path[1..]) == parts;
    }
  }

  predicate JoinsTo(parts: seq<string>, path: string) {
    parts != [] && Join(parts) == path
  }

  lemma {:induction false} JoinAppends(a: seq<string>, b: seq<string>)
    ensures Join(a + b) == Join(a) + Join(b)
    decreases |a|
  {
    if a == [] {
      assert a + b == b;
    } else {
      assert (a + b)[1..] == a[1..] + b;
      JoinAppends(a[1..], b);
    }
  }

  /** Splitting a join of slash-free parts gives them back. */
  lemma {:induction false} SplitInvertsJoin(parts: seq<string>)
    requires parts != [] && forall i :: 0 <= i < |parts| ==> '/' !in parts[i]
    ensures Split(Join(parts)[1..]) == parts
    decreases |parts|, |parts[0]|
  {
    var first, rest := parts[0], parts[1..];
    assert Join(parts)[1..] == first + Join(rest);
    SplitAtSlash(first, Join(rest));
    if rest == [] {
      assert first + "" == first;
      assert parts == [first];
    } else {
      SplitInvertsJoin(rest);
      assert Join(rest)[0] == '/';
      assert parts == [first] + rest;
    }
  }

  /** A slash-free head stays whole; what follows is nothing or starts a new part. */
  lemma {:induction false} SplitAtSlash(head: string, tail: string)
    requires '/' !in head && (tail == "" || tail[0] == '/')
    ensures Split(head + tail) == [head] + (if tail == "" then [] else Split(tail[1..]))
    decreases |head|
  {
    if head == "" {
      assert head + tail == tail;
    } else {
      assert (head + tail)[1..] == head[1..] + tail;
      SplitAtSlash(head[1..], tail);
      assert [head[0]] + head[1..] == head;
    }
  }

  /** An accepted path, other than the root. */
  predicate Below(path: string) {
    ValidPath(path) && path != "/"
  }

  /** The relation is equality or strict ancestry of whole components: what follows an ancestor
      in its descendant's text starts with a slash, so `/a` is no ancestor of `/ab`. Nothing else is
      related, and no path that is not accepted. */
  lemma RelationByText(ancestor: string, descendant: string)
    ensures CgroupRelation(ancestor, descendant) == Some(Equal)
            <==> Below(ancestor) && Below(descendant) && ancestor == descendant
    ensures CgroupRelation(ancestor, descendant) == Some(Ancestor)
            <==> Below(ancestor) && Below(descendant) && ancestor + "/" <= descendant
  {
    if Below(ancestor) && Below(descendant) {
      PathIsItsParts(ancestor);
      PathIsItsParts(descendant);
      var a, d := Parts(ancestor), Parts(descendant);
      if |a| < |d| && d[..|a|] == a {
        assert d == a + d[|a|..];
        JoinAppends(a, d[|a|..]);
        assert Join(d[|a|..])[0] == '/';
        assert descendant == ancestor + Join(d[|a|..]);
        assert descendant[..|ancestor| + 1] == ancestor + "/";
      }
      if ancestor + "/" <= descendant { TextPrefixIsPartsPrefix(ancestor, descendant); }
    }
  }

  lemma TextPrefixIsPartsPrefix(ancestor: string, descendant: string)
    requires ValidPath(ancestor) && ValidPath(descendant) && ancestor != "/" && descendant != "/"
    requires ancestor + "/" <= descendant
    ensures |Parts(ancestor)| < |Parts(descendant)| && Parts(descendant)[..|Parts(ancestor)|] == Parts(ancestor)
  {
    PathIsItsParts(ancestor);
    var a := Parts(ancestor);
    var more := Split(descendant[|ancestor| + 1..]);
    JoinInvertsSplit(descendant[|ancestor| + 1..]);
    assert descendant == ancestor + "/" + descendant[|ancestor| + 1..];
    JoinAppends(a, more);
    assert Join(a + more) == descendant;
    SplitInvertsJoin(a + more);
    assert Parts(descendant) == a + more;
  }

  predicate Related(ancestor: string, descendant: string) {
    CgroupRelation(ancestor, descendant).Some?
  }

  /** On paths below the root the relation is a partial order. */
  lemma RelationIsAnOrder(a: string, b: string, c: string)
    ensures ValidPath(a) && a != "/" ==> Related(a, a)
    ensures Related(a, b) && Related(b, a) ==> a == b
    ensures Related(a, b) && Related(b, c) ==> Related(a, c)
    ensures !Related("/", a) && !Related(a, "/")
    ensures Related(a, b) <==> CgroupRelation(a, b) == Some(Equal) || CgroupRelation(a, b) == Some(Ancestor)
  {
    if Related(a, b) && Related(b, a) { RelationByText(a, b); }
    if Related(a, b) && Related(b, c) {
      assert Parts(c)[..|Parts(a)|] == Parts(c)[..|Parts(b)|][..|Parts(a)|];
    }
  }

  // -------------------------------------------------------------------------------- handles

  /** The process's open handles. Numbers are never reused, and only an open one can be closed,
      so each is closed once. */
  class Handles {
    var open: set<nat>
    var next: nat

    ghost predicate Valid()
      reads this
    {
      forall h :: h in open ==> h < next
    }

    constructor ()
      ensures Valid() && open == {}
    {
      open, next := {}, 0;
    }

    method Open() returns (h: nat)
      requires Valid()
      modifies this
      ensures Valid() && h !in old(open) && open == old(open) + {h}
    {
      h := next;
      next := next + 1;
      open := open + {h};
    }

    method Close(h: nat)
      requires Valid() && h in open
      modifies this
      ensures Valid() && open == old(open) - {h}
    {
      open := open - {h};
    }
  }

  /** Opens a directory a component at a time, from the root down. `opens` says which of the
      opens succeed. Whatever fails, nothing but the result stays open. */
  method OpenCgroup(handles: Handles, parts: seq<string>, unified: bool, opens: seq<bool>)
    returns (result: Option<nat>)
    requires handles.Valid() && |opens| == |parts|
    modifies handles
    ensures handles.Valid()
    ensures result.Some? <==> unified && forall i :: 0 <= i < |parts| ==> opens[i]
    ensures result.Some? ==> result.value !in old(handles.open) && handles.open == old(handles.open) + {result.value}
    ensures result.None? ==> handles.open == old(handles.open)
  {
    ghost var before := handles.open;
    var root := handles.Open();
    if !unified {
      handles.Close(root);
      return None;
    }
    var current := root;
    var i := 0;
    while i < |parts|
      invariant 0 <= i <= |parts| && handles.Valid()
      invariant forall j :: 0 <= j < i ==> opens[j]
      invariant root !in before && current !in before && handles.open == before + {root, current}
      invariant current == root <==> i == 0
    {
      if !opens[i] {
        if current != root { handles.Close(current); }
        handles.Close(root);
        assert handles.open == before;
        return None;
      }
      var next := handles.Open();
      if current != root { handles.Close(current); }
      current := next;
      i := i + 1;
    }
    if current == root { current := handles.Open(); }
    handles.Close(root);
    result := Some(current);
  }

  // ------------------------------------------------------------------------------- the scan

  /** What inspecting a listed container gives: a failure, something that cannot own a
      connection, or a running container on the host's network. */
  datatype Inspection = Fails | NotEligible | Candidate(started: string, pid: nat)

  /** One listed container and what the engine and the kernel say of it, in the order they are
      asked: `cgroup` is absent where its process cannot be pinned. */
  datatype Listed = Listed(
    first: Inspection,
    cgroup: Option<string>,
    second: Inspection,
    stable: bool,
    acceptedUnmoved: bool)

  predicate Matches(c: Listed, accepted: string) {
    c.first.Candidate? && c.cgroup.Some? && Related(c.cgroup.value, accepted)
  }

  /** Nothing about this container failed or moved while it was looked at. */
  predicate Calm(c: Listed, accepted: string) {
    && !c.first.Fails?
    && (c.first.Candidate? ==> c.cgroup.Some?)
    && (Matches(c, accepted) ==> c.second == c.first && c.stable && c.acceptedUnmoved)
  }

  function MatchCount(listing: seq<Listed>, accepted: string): nat {
    if listing == [] then 0
    else MatchCount(listing[..|listing| - 1], accepted) + if Matches(listing[|listing| - 1], accepted) then 1 else 0
  }

  /** Everything read again once the scan is over. */
  datatype Closing = Closing(
    engineSame: bool,
    systemdSame: bool,
    last: Inspection,
    peerStable: bool,
    matchStable: bool,
    acceptedUnmoved: bool,
    attestationSame: bool,
    peerLive: bool)

  predicate Undisturbed(c: Closing, match_: Listed) {
    && c.engineSame && c.systemdSame && c.last == match_.first
    && c.peerStable && c.matchStable && c.acceptedUnmoved && c.attestationSame && c.peerLive
  }

  datatype Answer = Resolved(index: nat, relation: Relation) | Incomplete

  lemma {:induction false} OneMatchIsUnique(listing: seq<Listed>, accepted: string)
    ensures MatchCount(listing, accepted) == 0 <==>
              forall i :: 0 <= i < |listing| ==> !Matches(listing[i], accepted)
    ensures MatchCount(listing, accepted) == 1 ==>
              forall i, j :: 0 <= i < |listing| && 0 <= j < |listing| ==>
                Matches(listing[i], accepted) && Matches(listing[j], accepted) ==> i == j
    decreases |listing|
  {
    if listing != [] {
      var last := |listing| - 1;
      OneMatchIsUnique(listing[..last], accepted);
      assert forall i :: 0 <= i < last ==> listing[..last][i] == listing[i];
      if Matches(listing[last], accepted) { assert MatchCount(listing, accepted) > 0; }
    }
  }

  lemma MatchCountOfPrefix(listing: seq<Listed>, accepted: string, i: nat)
    requires i <= |listing|
    ensures MatchCount(listing[..0], accepted) == 0
    ensures i < |listing| ==>
              MatchCount(listing[..i + 1], accepted)
              == MatchCount(listing[..i], accepted) + if Matches(listing[i], accepted) then 1 else 0
  {
    if i < |listing| { assert listing[..i + 1][..i] == listing[..i]; }
  }

  class Correlator {
    const handles: Handles

    constructor (handles: Handles)
      ensures this.handles == handles
    {
      this.handles := handles;
    }

    method CloseAll(pinned: set<nat>)
      requires handles.Valid() && pinned <= handles.open
      modifies handles
      ensures handles.Valid() && handles.open == old(handles.open) - pinned
    {
      var left := pinned;
      while left != {}
        invariant handles.Valid() && left <= pinned
        invariant handles.open == old(handles.open) - (pinned - left)
        decreases |left|
      {
        var h :| h in left;
        handles.Close(h);
        left := left - {h};
      }
    }

    /** Looks at every listed container, pinning each candidate while it is compared and keeping
        only the ones that match. Stops at the first failure. */
    method Scan(listing: seq<Listed>, accepted: string)
      returns (calm: bool, found: Option<nat>, count: nat, pinned: set<nat>)
      requires handles.Valid()
      modifies handles
      ensures handles.Valid() && pinned !! old(handles.open) && handles.open == old(handles.open) + pinned
      ensures calm <==> forall i :: 0 <= i < |listing| ==> Calm(listing[i], accepted)
      ensures calm ==> count == MatchCount(listing, accepted) == |pinned|
      ensures calm && count > 0 ==> found.Some? && found.value < |listing| && Matches(listing[found.value], accepted)
    {
      hide MatchCount, Calm, Matches;
      calm, found, count, pinned := true, None, 0, {};
      MatchCountOfPrefix(listing, accepted, 0);
      ghost var before := handles.open;
      var i := 0;
      while i < |listing|
        invariant 0 <= i <= |listing| && handles.Valid()
        invariant calm && forall j :: 0 <= j < i ==> Calm(listing[j], accepted)
        invariant count == MatchCount(listing[..i], accepted) == |pinned|
        invariant pinned !! before && handles.open == before + pinned
        invariant count > 0 ==> found.Some? && found.value < i && Matches(listing[found.value], accepted)
      {
        MatchCountOfPrefix(listing, accepted, i);
        var kept := Examine(listing[i], accepted);
        if kept.None? {
          calm := false;
          return;
        }
        if kept.value.Some? {
          found, count := Some(i), count + 1;
          pinned := pinned + {kept.value.value};
        }
        i := i + 1;
      }
      assert listing[..|listing|] == listing;
    }

    /** One container: nothing where something failed or moved, otherwise the pin it keeps if it
        matches. A pin that is not kept is closed before the next container is looked at. */
    method Examine(c: Listed, accepted: string) returns (kept: Option<Option<nat>>)
      requires handles.Valid()
      modifies handles
      ensures handles.Valid()
      ensures kept.Some? <==> Calm(c, accepted)
      ensures kept.Some? ==> (kept.value.Some? <==> Matches(c, accepted))
      ensures kept.Some? && kept.value.Some? ==>
                kept.value.value !in old(handles.open) && handles.open == old(handles.open) + {kept.value.value}
      ensures kept.None? || kept.value.None? ==> handles.open == old(handles.open)
    {
      if c.first.Fails? || (c.first.Candidate? && c.cgroup.None?) { return None; }
      if !c.first.Candidate? { return Some(None); }
      var pin := handles.Open();
      var related := Related(c.cgroup.value, accepted);
      if related && c.second == c.first && c.stable && c.acceptedUnmoved { return Some(Some(pin)); }
      handles.Close(pin);
      kept := if related then None else Some(None);
    }

    /** Resolved means exactly one container of the complete listing was related to the accepted
        connection's cgroup, and nothing moved between the two readings; on every way out, every
        handle is closed. */
    method Correlate(attested: bool, peer: bool, daemon: bool, listing: seq<Listed>, accepted: string, closing: Closing)
      returns (answer: Answer)
      requires handles.Valid()
      modifies handles
      ensures handles.Valid() && handles.open == old(handles.open)
      ensures answer.Resolved? ==>
                && answer.index < |listing|
                && Matches(listing[answer.index], accepted)
                && CgroupRelation(listing[answer.index].cgroup.value, accepted) == Some(answer.relation)
                && (forall j :: 0 <= j < |listing| && j != answer.index ==> !Matches(listing[j], accepted))
                && Undisturbed(closing, listing[answer.index])
      ensures answer.Resolved? <==>
                && attested && peer && daemon
                && (forall i :: 0 <= i < |listing| ==> Calm(listing[i], accepted))
                && MatchCount(listing, accepted) == 1
                && exists i :: 0 <= i < |listing| && Matches(listing[i], accepted) && Undisturbed(closing, listing[i])
    {
      if !attested || !peer { return Incomplete; }
      var peerHandle := handles.Open();
      if !daemon {
        handles.Close(peerHandle);
        return Incomplete;
      }
      var calm, found, count, pinned := Scan(listing, accepted);
      OneMatchIsUnique(listing, accepted);
      answer := Incomplete;
      if calm && count == 1 {
        var match_ := listing[found.value];
        if closing.engineSame && closing.systemdSame && closing.last == match_.first
           && closing.peerStable && closing.matchStable && closing.acceptedUnmoved
           && closing.attestationSame && closing.peerLive
        {
          answer := Resolved(found.value, CgroupRelation(match_.cgroup.value, accepted).value);
        }
      }
      CloseAll(pinned);
      handles.Close(peerHandle);
    }
  }
}
