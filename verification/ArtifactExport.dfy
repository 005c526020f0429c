/**
 One export run: every manifest output is checked on disk, PUT create-only, and read back in full.
 The transport may lose, refuse or cut anything; `sha` is the digest, an arbitrary function here.
 */
module ArtifactExport {
  import opened Wrappers
  import opened StagingTypes

  type Content = seq<nat>
  type Sha = Content -> Digest

  const BLOCK := 1024 * 1024

  /** A file or response body. A read gives at most what was asked, possibly less, and nothing only at the end. */
  class Stream {
    const content: Content
    var pos: nat

    constructor (body: Content)
      ensures content == body && pos == 0
    {
      content, pos := body, 0;
    }

    method Read(most: nat) returns (block: Content)
      requires pos <= |content|
      modifies this
      ensures old(pos) <= pos <= |content| && |block| <= most && block == content[old(pos)..pos]
      ensures block == [] <==> most == 0 || old(pos) == |content|
    {
      if most == 0 || pos == |content| {
        return [];
      }
      var n :| 1 <= n <= most && pos + n <= |content|;
      block := content[pos..pos + n];
      pos := pos + n;
    }
  }

  /** Size and digest of a stream no longer than `limit`; of a longer one at most `limit + 1` bytes are read. */
  method Identify(stream: Stream, limit: nat, sha: Sha) returns (r: Option<Object>)
    requires stream.pos == 0
    modifies stream
    ensures r.Some? <==> |stream.content| <= limit
    ensures r.Some? ==> r.value == Object(|stream.content|, sha(stream.content))
    ensures stream.pos <= limit + 1
  {
    var size, digested := 0, [];
    while true
      invariant size == stream.pos <= |stream.content| && size <= limit
      invariant digested == stream.content[..stream.pos]
      decreases |stream.content| - size
    {
      var block := stream.Read(if BLOCK <= limit + 1 - size then BLOCK else limit + 1 - size);
      if block == [] {
        assert stream.content[..stream.pos] == stream.content;
        return Some(Object(size, sha(digested)));
      }
      size := size + |block|;
      digested := digested + block;
      if size > limit {
        return None;
      }
    }
  }

  /**
   What happens around one output. `capable`: the path, endpoint and header checks pass. `reached`: the PUT
   got to the store. `answer`: its status, if any. `served`: how much of the object the GET delivers, if anything.
   */
  datatype Event = Event(capable: bool, reached: bool, answer: Option<nat>, served: Option<nat>)

  function Cut(content: Content, served: nat): Content {
    if served < |content| then content[..served] else content
  }

  predicate PutSettles(answer: Option<nat>) {
    answer.None? || answer.value == 200 || answer.value == 201 || answer.value == 412
  }

  /** The local artifact is exactly the declared, proven output. */
  predicate LocalExact(o: Output, files: map<Key, Content>, sha: Sha) {
    o.key in files && o.proven && Object(|files[o.key]|, sha(files[o.key])) == Object(o.size, o.sha)
  }

  /** The object under the output's key after its PUT. */
  function Stored(o: Output, files: map<Key, Content>, objects: map<Key, Content>, e: Event): Option<Content> {
    if o.key in objects then Some(objects[o.key])
    else if e.reached && o.key in files then Some(files[o.key])
    else None
  }

  predicate Copied(o: Output, files: map<Key, Content>, objects: map<Key, Content>, e: Event, sha: Sha) {
    o.key.ObjectKey? && LocalExact(o, files, sha) && e.capable && PutSettles(e.answer)
    && var c := Stored(o, files, objects, e);
    c.Some? && e.served.Some? && e.served.value >= |c.value| && Object(|c.value|, sha(c.value)) == Object(o.size, o.sha)
  }

  predicate AllCopied(outputs: seq<Output>, files: map<Key, Content>, objects: map<Key, Content>, events: seq<Event>, sha: Sha)
    requires |events| == |outputs|
  {
    forall i :: 0 <= i < |outputs| ==> Copied(outputs[i], files, objects, events[i], sha)
  }

  function Identities(objects: map<Key, Content>, sha: Sha): map<Key, Object> {
    map k | k in objects :: Object(|objects[k]|, sha(objects[k]))
  }

  /** Whatever the store holds under an output's key is the local artifact. */
  predicate Agrees(outputs: seq<Output>, files: map<Key, Content>, objects: map<Key, Content>) {
    forall i :: 0 <= i < |outputs| && outputs[i].key in objects ==>
      outputs[i].key in files && objects[outputs[i].key] == files[outputs[i].key]
  }

  /** Nothing but checked artifacts of this manifest has been added to the store. */
  ghost predicate OnlyArtifacts(outputs: seq<Output>, files: map<Key, Content>, before: map<Key, Content>,
                                after: map<Key, Content>, sha: Sha) {
    forall k :: k in after && k !in before ==>
      k in files && after[k] == files[k] && exists i :: 0 <= i < |outputs| && outputs[i].key == k && LocalExact(outputs[i], files, sha)
  }

  class ObjectStore {
    var objects: map<Key, Content>

    constructor ()
      ensures objects == map[]
    {
      objects := map[];
    }

    /** `If-None-Match: *`: a key is written once. */
    method PutNew(key: Key, content: Content)
      modifies this
      ensures objects == if key in old(objects) then old(objects) else old(objects)[key := content]
    {
      if key !in objects {
        objects := objects[key := content];
      }
    }

    /** One output: local identity, PUT, readback. */
    method Copy(o: Output, files: map<Key, Content>, e: Event, sha: Sha) returns (ok: bool)
      modifies this
      ensures ok <==> Copied(o, files, old(objects), e, sha)
      ensures objects == old(objects)
              || (o.key !in old(objects) && LocalExact(o, files, sha) && objects == old(objects)[o.key := files[o.key]])
      ensures ok <==>
                && o.key.ObjectKey? && o.proven && o.key in files && |files[o.key]| == o.size && sha(files[o.key]) == o.sha
                && e.capable && (e.answer.None? || e.answer.value in {200, 201, 412})
                && o.key in objects && |objects[o.key]| == o.size && sha(objects[o.key]) == o.sha
                && e.served.Some? && e.served.value >= o.size
    {
      if !o.key.ObjectKey? || o.key !in files || !o.proven {
        return false;
      }
      var source := new Stream(files[o.key]);
      var local := Identify(source, o.size, sha);
      if local != Some(Object(o.size, o.sha)) || !e.capable {
        return false;
      }
      if e.reached {
        PutNew(o.key, files[o.key]);
      }
      if e.answer.Some? && e.answer.value != 200 && e.answer.value != 201 && e.answer.value != 412 {
        return false;
      }
      if o.key !in objects || e.served.None? || |objects[o.key]| != o.size {
        return false;
      }
      var body := new Stream(Cut(objects[o.key], e.served.value));
      var back := Identify(body, o.size, sha);
      return back == Some(Object(o.size, o.sha));
    }

    /**
     The whole run. It succeeds exactly when every output is copied, its receipts are then those of the
     manifest, and success or not the store only grows, by checked artifacts.
     */
    method Export(stagingOnly: bool, outputs: seq<Output>, capabilities: set<Key>, files: map<Key, Content>,
                  events: seq<Event>, sha: Sha) returns (r: Option<seq<OutputReceipt>>)
      requires |events| == |outputs|
      modifies this
      ensures r.Some? <==>
                && stagingOnly && outputs != [] && UniqueKeys(outputs) && capabilities == (set o | o in outputs :: o.key)
                && AllCopied(outputs, files, old(objects), events, sha)
      ensures r.Some? ==> r.value == ReceiptsOf(outputs) && InStore(outputs, Identities(objects, sha))
      ensures Grown(outputs, files, old(objects), objects, sha)
    {
      if !stagingOnly || outputs == [] || !UniqueKeys(outputs) || (set o | o in outputs :: o.key) != capabilities {
        NotGrown(outputs, files, objects, sha);
        return None;
      }
      ghost var before := objects;
      NotGrown(outputs, files, objects, sha);
      var receipts := [];
      for i := 0 to |outputs|
        invariant receipts == ReceiptsOf(outputs[..i])
        invariant Grown(outputs, files, before, objects, sha) && CopiedBelow(outputs, files, before, objects, events, sha, i)
      {
        hide Grown, CopiedBelow, Copied, LocalExact, AllCopied;
        var o := outputs[i];
        ghost var mid := objects;
        var ok := Copy(o, files, events[i], sha);
        CopyGrows(outputs, files, before, mid, objects, events, sha, i);
        if !ok {
          return None;
        }
        receipts := receipts + [OutputReceipt(o.key, o.size, o.sha, true)];
      }
      assert outputs[..|outputs|] == outputs;
      return Some(receipts);
    }
  }

  /** The store kept what it held and gained only checked artifacts, so it agrees with the disk if it did before. */
  ghost predicate Grown(outputs: seq<Output>, files: map<Key, Content>, before: map<Key, Content>, after: map<Key, Content>, sha: Sha) {
    Extends(before, after) && OnlyArtifacts(outputs, files, before, after, sha)
    && (Agrees(outputs, files, before) ==> Agrees(outputs, files, after))
  }

  lemma NotGrown(outputs: seq<Output>, files: map<Key, Content>, objects: map<Key, Content>, sha: Sha)
    ensures Grown(outputs, files, objects, objects, sha)
  {
  }

  /** The first `i` outputs are copied and readable, and the others have not been touched. */
  ghost predicate CopiedBelow(outputs: seq<Output>, files: map<Key, Content>, before: map<Key, Content>, now: map<Key, Content>,
                              events: seq<Event>, sha: Sha, i: nat)
    requires |events| == |outputs|
  {
    i <= |outputs| && UniqueKeys(outputs)
    && (forall k :: i <= k < |outputs| ==> Same(outputs[k].key, before, now))
    && (forall k :: 0 <= k < i ==> Copied(outputs[k], files, before, events[k], sha))
    && (forall k :: 0 <= k < i ==> Holds(outputs[k], now, sha))
  }

  predicate Holds(o: Output, objects: map<Key, Content>, sha: Sha) {
    o.key in objects && Object(|objects[o.key]|, sha(objects[o.key])) == Object(o.size, o.sha)
  }

  lemma CopyGrows(outputs: seq<Output>, files: map<Key, Content>, before: map<Key, Content>, mid: map<Key, Content>,
                  now: map<Key, Content>, events: seq<Event>, sha: Sha, i: nat)
    requires i < |outputs| == |events|
    requires Grown(outputs, files, before, mid, sha) && CopiedBelow(outputs, files, before, mid, events, sha, i)
    requires now == mid || (outputs[i].key !in mid && LocalExact(outputs[i], files, sha)
      && now == mid[outputs[i].key := files[outputs[i].key]])
    requires Copied(outputs[i], files, mid, events[i], sha) ==> Holds(outputs[i], now, sha)
    ensures Grown(outputs, files, before, now, sha)
    ensures Copied(outputs[i], files, mid, events[i], sha) ==> CopiedBelow(outputs, files, before, now, events, sha, i + 1)
    ensures !Copied(outputs[i], files, mid, events[i], sha) ==> !AllCopied(outputs, files, before, events, sha)
  {
    assert Same(outputs[i].key, before, mid);
    CopiedSame(outputs[i], files, before, mid, events[i], sha);
    OneGrows(outputs, files, before, mid, now, sha, i);
    hide Copied, LocalExact, Grown;
  }

  lemma OneGrows(outputs: seq<Output>, files: map<Key, Content>, before: map<Key, Content>, mid: map<Key, Content>,
                 now: map<Key, Content>, sha: Sha, i: nat)
    requires i < |outputs| && UniqueKeys(outputs) && Grown(outputs, files, before, mid, sha)
    requires now == mid || (outputs[i].key !in mid && LocalExact(outputs[i], files, sha)
      && now == mid[outputs[i].key := files[outputs[i].key]])
    ensures Grown(outputs, files, before, now, sha)
  {
  }

  lemma CopiedSame(o: Output, files: map<Key, Content>, a: map<Key, Content>, b: map<Key, Content>, e: Event, sha: Sha)
    requires Same(o.key, a, b)
    ensures Copied(o, files, a, e, sha) == Copied(o, files, b, e, sha)
  {
  }

  predicate Same(k: Key, a: map<Key, Content>, b: map<Key, Content>) {
    (k in a <==> k in b) && (k in a ==> a[k] == b[k])
  }

  /**
   A transport that delivers everything. The store answers 412 to a key it has and 200 or 201 to a new one; either
   answer may be lost.
   */
  predicate Favourable(outputs: seq<Output>, files: map<Key, Content>, objects: map<Key, Content>, events: seq<Event>)
    requires |events| == |outputs|
  {
    forall i :: 0 <= i < |outputs| ==>
      outputs[i].key in files && events[i].capable && events[i].reached
      && events[i].served.Some? && events[i].served.value >= |files[outputs[i].key]|
      && (events[i].answer.Some? ==> events[i].answer.value in if outputs[i].key in objects then {412} else {200, 201})
  }

  /**
   However a run was interrupted, over a store that agrees with the disk a later undisturbed run succeeds:
   an earlier PUT, acknowledged or not, is never in the way.
   */
  lemma RetrySucceeds(outputs: seq<Output>, files: map<Key, Content>, before: map<Key, Content>, after: map<Key, Content>,
                      events: seq<Event>, sha: Sha)
    requires |events| == |outputs| && Favourable(outputs, files, after, events)
    requires Agrees(outputs, files, before) && Grown(outputs, files, before, after, sha)
    ensures AllCopied(outputs, files, after, events, sha)
            <==> forall i :: 0 <= i < |outputs| ==> outputs[i].key.ObjectKey? && LocalExact(outputs[i], files, sha)
  {
    forall i | 0 <= i < |outputs|
      ensures Copied(outputs[i], files, after, events[i], sha) <==> outputs[i].key.ObjectKey? && LocalExact(outputs[i], files, sha)
    {
      assert Stored(outputs[i], files, after, events[i]) == Some(files[outputs[i].key]);
    }
  }
}
