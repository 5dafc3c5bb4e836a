/** The accounting of a privacy incident: tracked objects, the original removal and the later ones. */
module PrivacyAccounting {
  import opened Common

  /** `textsOk`: the path is safe, the blob is an object id and the category is text. */
  datatype Object = Object(path: string, gitBlob: string, bytes: int, textsOk: bool)

  /** `textsOk`: commit, method and the user-data flag are as required. */
  datatype Removal = Removal(gitBlobs: seq<string>, trackedPathsRemoved: int, trackedBytesRemoved: int, textsOk: bool)

  /** Schema 1 has no additional removals. */
  datatype Incident = Incident(
    schemaVersion: int, trackedPathsRemoved: int, trackedBytesRemoved: int,
    trackedObjectManifest: seq<Object>, additionalTreeContainment: seq<Removal>)

  datatype Error = BadContainment | BadObject(index: nat) | NoRemovals | BadRemoval | BadBlob | BadBytes | TotalsDisagree

  // ---- numbers: doubles, which add exactly only up to 2^53 ----

  const LIMIT: int := 0x20_0000_0000_0000

  /** What the addition of two integral doubles makes of their sum. */
  type Rounding = int -> int

  const EXACT: Rounding := (n: int) => n

  /** A rounding is monotone and leaves integers up to 2^53 alone, as that of IEEE 754 does. */
  ghost predicate Rounds(round: Rounding)
  {
    && (forall n :: 0 <= n <= LIMIT ==> round(n) == n)
    && (forall a, b :: 0 <= a <= b ==> round(a) <= round(b))
  }

  /** The total that the loop over the manifest adds up. */
  function Total(round: Rounding, objects: seq<Object>): int
  {
    if objects == [] then 0 else round(Total(round, objects[..|objects| - 1]) + objects[|objects| - 1].bytes)
  }

  function Bytes(objects: seq<Object>): int
  {
    if objects == [] then 0 else objects[0].bytes + Bytes(objects[1..])
  }

  function Paths(objects: seq<Object>): seq<string> { Map((o: Object) => o.path, objects) }

  function Blobs(objects: seq<Object>): seq<string> { Map((o: Object) => o.gitBlob, objects) }

  /** `new Map(manifest.map(item => [item.gitBlob, item.bytes]))`. */
  function BytesByBlob(objects: seq<Object>): (m: map<string, int>)
    ensures forall blob :: blob in m <==> blob in Blobs(objects)
  {
    if objects == [] then map[]
    else
      var last := objects[|objects| - 1];
      var front := objects[..|objects| - 1];
      assert Blobs(objects) == Blobs(front) + [last.gitBlob];
      BytesByBlob(front)[last.gitBlob := last.bytes]
  }

  predicate SoundObject(o: Object) { o.textsOk && o.bytes >= 1 }

  predicate SoundRemoval(r: Removal)
  {
    r.textsOk && r.gitBlobs != [] && r.trackedPathsRemoved == |r.gitBlobs| && 1 <= r.trackedBytesRemoved < LIMIT
  }

  // ---- the loops as functions ----

  /** The first object that is unsound or repeats a path or a blob. */
  function ManifestError(objects: seq<Object>, index: nat): Option<Error>
    requires index <= |objects|
    decreases |objects| - index
  {
    if index == |objects| then None
    else if !SoundObject(objects[index]) || objects[index].path in Paths(objects[..index])
            || objects[index].gitBlob in Blobs(objects[..index]) then Some(BadObject(index))
    else ManifestError(objects, index + 1)
  }

  /** Claim the blobs of one removal: the claimed blobs and the bytes so far. */
  function Claim(round: Rounding, bytesByBlob: map<string, int>, claimed: set<string>, bytes: int, blobs: seq<string>):
    Result<(set<string>, int), Error>
    decreases |blobs|
  {
    if blobs == [] then Ok((claimed, bytes))
    else if blobs[0] !in bytesByBlob || blobs[0] in claimed then Err(BadBlob)
    else Claim(round, bytesByBlob, claimed + {blobs[0]}, round(bytes + bytesByBlob[blobs[0]]), blobs[1..])
  }

  datatype Sums = Sums(claimed: set<string>, paths: int, bytes: int)

  function Remove(round: Rounding, bytesByBlob: map<string, int>, s: Sums, r: Removal): Result<Sums, Error>
  {
    if !SoundRemoval(r) then Err(BadRemoval)
    else
      match Claim(round, bytesByBlob, s.claimed, 0, r.gitBlobs)
      case Err(e) => Err(e)
      case Ok((claimed, bytes)) =>
        if bytes != r.trackedBytesRemoved then Err(BadBytes)
        else Ok(Sums(claimed, round(s.paths + r.trackedPathsRemoved), round(s.bytes + r.trackedBytesRemoved)))
  }

  function RemoveAll(round: Rounding, bytesByBlob: map<string, int>, s: Sums, removals: seq<Removal>): Result<Sums, Error>
    decreases |removals|
  {
    if removals == [] then Ok(s)
    else
      match Remove(round, bytesByBlob, s, removals[0])
      case Err(e) => Err(e)
      case Ok(next) => RemoveAll(round, bytesByBlob, next, removals[1..])
  }

  function Contained(round: Rounding, i: Incident): Result<Sums, Error>
  {
    var start := Sums({}, i.trackedPathsRemoved, i.trackedBytesRemoved);
    if i.schemaVersion != 2 then Ok(start)
    else if i.additionalTreeContainment == [] then Err(NoRemovals)
    else RemoveAll(round, BytesByBlob(i.trackedObjectManifest), start, i.additionalTreeContainment)
  }

  /** The accounting part of `buildPrivacyIncidentEvidence`: `None`, or why it throws. */
  function Check(round: Rounding, i: Incident): Option<Error>
  {
    if i.trackedPathsRemoved < 1 || i.trackedBytesRemoved < 1 || !(i.schemaVersion == 1 || i.schemaVersion == 2) then
      Some(BadContainment)
    else
      match ManifestError(i.trackedObjectManifest, 0)
      case Some(e) => Some(e)
      case None =>
        match Contained(round, i)
        case Err(e) => Some(e)
        case Ok(s) =>
          if |i.trackedObjectManifest| != s.paths || Total(round, i.trackedObjectManifest) != s.bytes then Some(TotalsDisagree)
          else None
  }

  // ---- the program ----

  lemma {:induction false} BytesAppend(a: seq<Object>, b: seq<Object>)
    ensures Bytes(a + b) == Bytes(a) + Bytes(b)
  {
    if a == [] {
      assert a + b == b;
    } else {
      assert (a + b)[1..] == a[1..] + b;
      BytesAppend(a[1..], b);
    }
  }

  lemma OneMore(objects: seq<Object>, index: nat)
    requires index < |objects|
    ensures Paths(objects[..index + 1]) == Paths(objects[..index]) + [objects[index].path]
    ensures Blobs(objects[..index + 1]) == Blobs(objects[..index]) + [objects[index].gitBlob]
  {
    assert objects[..index + 1] == objects[..index] + [objects[index]];
  }

  /** The loop over the manifest. */
  method ReadManifest(round: Rounding, manifest: seq<Object>) returns (error: Option<Error>, paths: nat, bytes: int)
    ensures error == ManifestError(manifest, 0)
    ensures error.None? ==> paths == |manifest| && bytes == Total(round, manifest)
  {
    hide Paths, Blobs, SoundObject;
    var trackedPaths: set<string>, trackedBlobs: set<string>, trackedBytes := {}, {}, 0;
    NothingYet(manifest);
    for index := 0 to |manifest|
      invariant forall p :: p in trackedPaths <==> p in Paths(manifest[..index])
      invariant forall b :: b in trackedBlobs <==> b in Blobs(manifest[..index])
      invariant trackedBytes == Total(round, manifest[..index])
      invariant ManifestError(manifest, 0) == ManifestError(manifest, index)
      invariant |trackedPaths| == index
    {
      var item := manifest[index];
      OneMore(manifest, index);
      if !SoundObject(item) || item.path in trackedPaths || item.gitBlob in trackedBlobs {
        return Some(BadObject(index)), 0, 0;
      }
      trackedPaths := trackedPaths + {item.path};
      trackedBlobs := trackedBlobs + {item.gitBlob};
      assert manifest[..index + 1][..index] == manifest[..index];
      trackedBytes := round(trackedBytes + item.bytes);
    }
    assert manifest[..|manifest|] == manifest;
    return None, |trackedPaths|, trackedBytes;
  }

  lemma NothingYet(objects: seq<Object>)
    ensures Paths(objects[..0]) == [] && Blobs(objects[..0]) == []
  {
  }

  method CheckAccounting(round: Rounding, i: Incident) returns (r: Option<Error>)
    ensures r == Check(round, i)
  {
    hide ManifestError, RemoveAll, BytesByBlob, Total;
    if i.trackedPathsRemoved < 1 || i.trackedBytesRemoved < 1 || !(i.schemaVersion == 1 || i.schemaVersion == 2) {
      return Some(BadContainment);
    }
    var error, paths, bytes := ReadManifest(round, i.trackedObjectManifest);
    if error.Some? { return error; }
    var s := Sums({}, i.trackedPathsRemoved, i.trackedBytesRemoved);
    if i.schemaVersion == 2 {
      if i.additionalTreeContainment == [] { return Some(NoRemovals); }
      var removed := RemoveEach(round, BytesByBlob(i.trackedObjectManifest), s, i.additionalTreeContainment);
      if removed.Err? { return Some(removed.error); }
      s := removed.value;
    }
    r := if paths != s.paths || bytes != s.bytes then Some(TotalsDisagree) else None;
  }

  /** The loop over the blobs of one removal. */
  method ClaimEach(round: Rounding, bytesByBlob: map<string, int>, start: set<string>, blobs: seq<string>)
    returns (r: Result<(set<string>, int), Error>)
    ensures r == Claim(round, bytesByBlob, start, 0, blobs)
  {
    var claimed, eventBytes := start, 0;
    assert blobs[0..] == blobs;
    for j := 0 to |blobs|
      invariant Claim(round, bytesByBlob, claimed, eventBytes, blobs[j..]) == Claim(round, bytesByBlob, start, 0, blobs)
    {
      var blob := blobs[j];
      assert blobs[j..][0] == blob && blobs[j..][1..] == blobs[j + 1..];
      if blob !in bytesByBlob || blob in claimed { return Err(BadBlob); }
      claimed := claimed + {blob};
      eventBytes := round(eventBytes + bytesByBlob[blob]);
    }
    r := Ok((claimed, eventBytes));
  }

  /** The loop over the additional removals. */
  method RemoveEach(round: Rounding, bytesByBlob: map<string, int>, start: Sums, removals: seq<Removal>)
    returns (r: Result<Sums, Error>)
    ensures r == RemoveAll(round, bytesByBlob, start, removals)
  {
    hide Claim, SoundRemoval;
    var s := start;
    assert removals[0..] == removals;
    for k := 0 to |removals|
      invariant RemoveAll(round, bytesByBlob, s, removals[k..]) == RemoveAll(round, bytesByBlob, start, removals)
    {
      var event := removals[k];
      assert removals[k..][0] == event && removals[k..][1..] == removals[k + 1..];
      if !SoundRemoval(event) { return Err(BadRemoval); }
      var claim := ClaimEach(round, bytesByBlob, s.claimed, event.gitBlobs);
      if claim.Err? { return Err(claim.error); }
      if claim.value.1 != event.trackedBytesRemoved { return Err(BadBytes); }
      s := Sums(claim.value.0, round(s.paths + event.trackedPathsRemoved), round(s.bytes + event.trackedBytesRemoved));
    }
    r := Ok(s);
  }

  // ---- main results ----

  function AllBlobs(removals: seq<Removal>): seq<string>
  {
    if removals == [] then [] else removals[0].gitBlobs + AllBlobs(removals[1..])
  }

  function Removals(i: Incident): seq<Removal>
  {
    if i.schemaVersion == 2 then i.additionalTreeContainment else []
  }

  /** The objects whose blobs are, or are not, among the given ones. */
  function Among(objects: seq<Object>, blobs: set<string>): seq<Object>
  {
    Filter((o: Object) => o.gitBlob in blobs, objects)
  }

  function Others(objects: seq<Object>, blobs: set<string>): seq<Object>
  {
    Filter((o: Object) => o.gitBlob !in blobs, objects)
  }

  lemma {:induction false} AmongOthers(objects: seq<Object>, blobs: set<string>)
    ensures |Among(objects, blobs)| + |Others(objects, blobs)| == |objects|
    ensures Bytes(Among(objects, blobs)) + Bytes(Others(objects, blobs)) == Bytes(objects)
  {
    if objects != [] { AmongOthers(objects[1..], blobs); }
  }

  lemma {:induction false} AmongUnknown(objects: seq<Object>, blobs: set<string>, blob: string)
    requires blob !in Blobs(objects)
    ensures Among(objects, blobs + {blob}) == Among(objects, blobs)
  {
    if objects != [] {
      assert Blobs(objects) == [objects[0].gitBlob] + Blobs(objects[1..]);
      AmongUnknown(objects[1..], blobs, blob);
    }
  }

  /** How the last object adds to the claimed ones. */
  lemma AmongLast(objects: seq<Object>, blobs: set<string>)
    requires objects != []
    ensures var front, last := objects[..|objects| - 1], objects[|objects| - 1];
            && |Among(objects, blobs)| == |Among(front, blobs)| + (if last.gitBlob in blobs then 1 else 0)
            && Bytes(Among(objects, blobs)) == Bytes(Among(front, blobs)) + (if last.gitBlob in blobs then last.bytes else 0)
  {
    var front, last := objects[..|objects| - 1], objects[|objects| - 1];
    assert objects == front + [last];
    FilterAppend((o: Object) => o.gitBlob in blobs, front, [last]);
    BytesAppend(Among(front, blobs), Among([last], blobs));
  }

  lemma FrontDistinct(objects: seq<Object>)
    requires objects != [] && Distinct(Blobs(objects))
    ensures var front, last := objects[..|objects| - 1], objects[|objects| - 1];
            && Distinct(Blobs(front)) && last.gitBlob !in Blobs(front)
            && forall b :: b in Blobs(objects) <==> b == last.gitBlob || b in Blobs(front)
  {
    var n := |objects| - 1;
    var front, last := objects[..n], objects[n];
    assert Blobs(objects) == Blobs(front) + [last.gitBlob];
    assert forall k :: 0 <= k < n ==> Blobs(front)[k] == Blobs(objects)[k] != Blobs(objects)[n];
  }

  /** Claiming one more known blob claims one more object with its bytes. */
  lemma {:induction false} ClaimOne(objects: seq<Object>, blobs: set<string>, blob: string)
    requires Distinct(Blobs(objects)) && blob in Blobs(objects) && blob !in blobs
    ensures blob in BytesByBlob(objects)
    ensures |Among(objects, blobs + {blob})| == |Among(objects, blobs)| + 1
    ensures Bytes(Among(objects, blobs + {blob})) == Bytes(Among(objects, blobs)) + BytesByBlob(objects)[blob]
  {
    assert objects != [];
    hide Blobs, Among, Bytes;
    FrontDistinct(objects);
    AmongLast(objects, blobs);
    AmongLast(objects, blobs + {blob});
    var front, last := objects[..|objects| - 1], objects[|objects| - 1];
    if last.gitBlob == blob {
      AmongUnknown(front, blobs, blob);
    } else {
      ClaimOne(front, blobs, blob);
    }
  }

  function AsSet(blobs: seq<string>): set<string> { set b | b in blobs }

  function Worth(m: map<string, int>, blobs: seq<string>): int
    requires forall b <- blobs :: b in m
  {
    if blobs == [] then 0 else m[blobs[0]] + Worth(m, blobs[1..])
  }

  /** Distinct, known and not claimed before. */
  ghost predicate Claimable(objects: seq<Object>, claimed: set<string>, blobs: seq<string>)
  {
    Distinct(blobs) && forall b <- blobs :: b in Blobs(objects) && b !in claimed
  }

  lemma ClaimableSplit(objects: seq<Object>, claimed: set<string>, blobs: seq<string>)
    requires blobs != []
    ensures Claimable(objects, claimed, blobs) <==>
            && blobs[0] in Blobs(objects) && blobs[0] !in claimed
            && Claimable(objects, claimed + {blobs[0]}, blobs[1..])
  {
    hide Blobs;
    var first, rest := blobs[0], blobs[1..];
    assert blobs == [first] + rest;
    if Claimable(objects, claimed, blobs) {
      assert forall i, j :: 0 <= i < j < |rest| ==> rest[i] == blobs[i + 1] && rest[j] == blobs[j + 1];
      assert forall j :: 0 <= j < |rest| ==> rest[j] == blobs[j + 1] != blobs[0];
    }
  }

  lemma {:induction false} ClaimExactly(objects: seq<Object>, claimed: set<string>, bytes: int, blobs: seq<string>)
    ensures var r := Claim(EXACT, BytesByBlob(objects), claimed, bytes, blobs);
            && (r.Ok? <==> Claimable(objects, claimed, blobs))
            && (r.Ok? ==> r.value.0 == claimed + AsSet(blobs))
    decreases |blobs|
  {
    if blobs == [] {
      assert claimed + AsSet(blobs) == claimed;
    } else {
      var m := BytesByBlob(objects);
      ClaimableSplit(objects, claimed, blobs);
      hide Claimable, BytesByBlob, Blobs;
      if blobs[0] in m {
        ClaimExactly(objects, claimed + {blobs[0]}, bytes + m[blobs[0]], blobs[1..]);
        assert claimed + AsSet(blobs) == claimed + {blobs[0]} + AsSet(blobs[1..]);
      }
    }
  }

  lemma {:induction false} ClaimWorth(m: map<string, int>, claimed: set<string>, bytes: int, blobs: seq<string>)
    requires Claim(EXACT, m, claimed, bytes, blobs).Ok?
    ensures forall b <- blobs :: b in m
    ensures Claim(EXACT, m, claimed, bytes, blobs).value.1 == bytes + Worth(m, blobs)
    decreases |blobs|
  {
    if blobs != [] {
      ClaimWorth(m, claimed + {blobs[0]}, bytes + m[blobs[0]], blobs[1..]);
      assert forall b :: b in blobs <==> b == blobs[0] || b in blobs[1..];
    }
  }

  /** What claimable blobs are worth is what their objects weigh. */
  lemma {:induction false} WorthOfObjects(objects: seq<Object>, claimed: set<string>, blobs: seq<string>)
    requires Distinct(Blobs(objects)) && Claimable(objects, claimed, blobs)
    ensures forall b <- blobs :: b in BytesByBlob(objects)
    ensures var all := claimed + AsSet(blobs);
            && |Among(objects, all)| == |Among(objects, claimed)| + |blobs|
            && Bytes(Among(objects, all)) == Bytes(Among(objects, claimed)) + Worth(BytesByBlob(objects), blobs)
    decreases |blobs|
  {
    if blobs == [] {
      assert claimed + AsSet(blobs) == claimed;
    } else {
      ClaimableSplit(objects, claimed, blobs);
      ClaimOne(objects, claimed, blobs[0]);
      WorthOfObjects(objects, claimed + {blobs[0]}, blobs[1..]);
      hide Claimable, Among, Bytes, Blobs;
      assert claimed + AsSet(blobs) == claimed + {blobs[0]} + AsSet(blobs[1..]);
    }
  }

  lemma {:induction false} NoneAmong(objects: seq<Object>)
    ensures Among(objects, {}) == [] && Others(objects, {}) == objects
  {
    if objects != [] { NoneAmong(objects[1..]); }
  }

  /** A removal declares exactly the weight of the objects it claims. */
  ghost predicate Weighed(objects: seq<Object>, r: Removal)
  {
    r.trackedBytesRemoved == Bytes(Among(objects, AsSet(r.gitBlobs)))
  }

  lemma RemoveExactly(objects: seq<Object>, s: Sums, r: Removal)
    requires Distinct(Blobs(objects))
    ensures var next := Remove(EXACT, BytesByBlob(objects), s, r);
            && (next.Ok? <==> SoundRemoval(r) && Claimable(objects, s.claimed, r.gitBlobs) && Weighed(objects, r))
            && (next.Ok? ==>
                  next.value == Sums(s.claimed + AsSet(r.gitBlobs), s.paths + |r.gitBlobs|, s.bytes + r.trackedBytesRemoved))
  {
    hide Claim, Claimable, Worth, BytesByBlob, Among, Bytes, AsSet, Blobs;
    ClaimExactly(objects, s.claimed, 0, r.gitBlobs);
    if Claimable(objects, s.claimed, r.gitBlobs) {
      ClaimWorth(BytesByBlob(objects), s.claimed, 0, r.gitBlobs);
      WorthAlone(objects, s.claimed, r.gitBlobs);
    }
  }

  lemma WorthAlone(objects: seq<Object>, claimed: set<string>, blobs: seq<string>)
    requires Distinct(Blobs(objects)) && Claimable(objects, claimed, blobs)
    ensures forall b <- blobs :: b in BytesByBlob(objects)
    ensures Worth(BytesByBlob(objects), blobs) == Bytes(Among(objects, AsSet(blobs)))
  {
    NoneAmong(objects);
    assert Claimable(objects, {}, blobs);
    hide Claimable, Blobs, Among, AsSet;
    WorthOfObjects(objects, {}, blobs);
    assert {} + AsSet(blobs) == AsSet(blobs);
  }

  lemma {:induction false} ClaimableConcat(objects: seq<Object>, claimed: set<string>, a: seq<string>, b: seq<string>)
    ensures Claimable(objects, claimed, a + b) <==>
            Claimable(objects, claimed, a) && Claimable(objects, claimed + AsSet(a), b)
    decreases |a|
  {
    if a == [] {
      assert a + b == b && claimed + AsSet(a) == claimed;
    } else {
      assert (a + b)[1..] == a[1..] + b;
      ClaimableSplit(objects, claimed, a);
      ClaimableSplit(objects, claimed, a + b);
      ClaimableConcat(objects, claimed + {a[0]}, a[1..], b);
      assert claimed + AsSet(a) == claimed + {a[0]} + AsSet(a[1..]);
    }
  }

  lemma {:induction false} RemoveAllExactly(objects: seq<Object>, s: Sums, removals: seq<Removal>)
    requires Distinct(Blobs(objects))
    ensures var r := RemoveAll(EXACT, BytesByBlob(objects), s, removals);
            && (r.Ok? <==>
                  && (forall removal <- removals :: SoundRemoval(removal) && Weighed(objects, removal))
                  && Claimable(objects, s.claimed, AllBlobs(removals)))
            && (r.Ok? ==>
                  && r.value.claimed == s.claimed + AsSet(AllBlobs(removals))
                  && r.value.paths == s.paths + |AllBlobs(removals)|
                  && r.value.bytes == s.bytes + Declared(removals))
    decreases |removals|
  {
    if removals == [] {
      assert s.claimed + AsSet([]) == s.claimed;
    } else {
      var first, rest := removals[0], removals[1..];
      RemoveExactly(objects, s, first);
      ClaimableConcat(objects, s.claimed, first.gitBlobs, AllBlobs(rest));
      hide Claimable, SoundRemoval, Weighed, Blobs, Remove;
      assert forall r :: r in removals <==> r == first || r in rest;
      var next := Remove(EXACT, BytesByBlob(objects), s, first);
      if next.Ok? {
        RemoveAllExactly(objects, next.value, rest);
        assert s.claimed + AsSet(AllBlobs(removals)) == s.claimed + AsSet(first.gitBlobs) + AsSet(AllBlobs(rest));
      }
    }
  }

  function Declared(removals: seq<Removal>): int
  {
    if removals == [] then 0 else removals[0].trackedBytesRemoved + Declared(removals[1..])
  }

  lemma {:induction false} ManifestFrom(objects: seq<Object>, index: nat)
    requires index <= |objects|
    requires Distinct(Paths(objects[..index])) && Distinct(Blobs(objects[..index]))
    requires forall o <- objects[..index] :: SoundObject(o)
    ensures ManifestError(objects, index).None? <==>
            (forall o <- objects :: SoundObject(o)) && Distinct(Paths(objects)) && Distinct(Blobs(objects))
    decreases |objects| - index
  {
    if index == |objects| {
      assert objects[..index] == objects;
    } else {
      var done, item := objects[..index], objects[index];
      assert objects[..index + 1] == done + [item];
      assert Paths(done + [item]) == Paths(done) + [item.path] && Blobs(done + [item]) == Blobs(done) + [item.gitBlob];
      assert item in objects;
      if item.path in Paths(done) {
        var k :| 0 <= k < index && Paths(done)[k] == item.path;
        assert Paths(objects)[k] == Paths(objects)[index];
      } else if item.gitBlob in Blobs(done) {
        var k :| 0 <= k < index && Blobs(done)[k] == item.gitBlob;
        assert Blobs(objects)[k] == Blobs(objects)[index];
      } else if SoundObject(item) {
        ManifestFrom(objects, index + 1);
      }
    }
  }

  /** Manifest and removals are sound in themselves. */
  ghost predicate Sound(i: Incident)
  {
    && i.trackedPathsRemoved >= 1 && i.trackedBytesRemoved >= 1 && (i.schemaVersion == 1 || i.schemaVersion == 2)
    && (forall o <- i.trackedObjectManifest :: SoundObject(o))
    && Distinct(Paths(i.trackedObjectManifest)) && Distinct(Blobs(i.trackedObjectManifest))
    && (i.schemaVersion == 2 ==> i.additionalTreeContainment != [])
    && (forall r <- Removals(i) :: SoundRemoval(r))
  }

  /** The removals claim disjoint known objects and their weight; the original removal is exactly the rest. */
  ghost predicate Conserved(i: Incident)
  {
    var objects, claimed := i.trackedObjectManifest, AsSet(AllBlobs(Removals(i)));
    && Distinct(AllBlobs(Removals(i))) && (forall b <- AllBlobs(Removals(i)) :: b in Blobs(objects))
    && (forall r <- Removals(i) :: Weighed(objects, r))
    && |Others(objects, claimed)| == i.trackedPathsRemoved
    && Bytes(Others(objects, claimed)) == i.trackedBytesRemoved
  }

  lemma {:induction false} DeclaredIsWorth(objects: seq<Object>, claimed: set<string>, removals: seq<Removal>)
    requires Distinct(Blobs(objects)) && Claimable(objects, claimed, AllBlobs(removals))
    requires forall r <- removals :: Weighed(objects, r)
    ensures Declared(removals) ==
            Bytes(Among(objects, claimed + AsSet(AllBlobs(removals)))) - Bytes(Among(objects, claimed))
    decreases |removals|
  {
    if removals == [] {
      assert claimed + AsSet([]) == claimed;
    } else {
      var blobs, rest := removals[0].gitBlobs, AllBlobs(removals[1..]);
      ClaimableConcat(objects, claimed, blobs, rest);
      WorthOfObjects(objects, claimed, blobs);
      WorthAlone(objects, claimed, blobs);
      assert Weighed(objects, removals[0]);
      DeclaredIsWorth(objects, claimed + AsSet(blobs), removals[1..]);
      assert claimed + AsSet(AllBlobs(removals)) == claimed + AsSet(blobs) + AsSet(rest);
    }
  }

  /** With exact numbers an incident is accepted exactly when it is sound and nothing is lost or counted twice. */
  lemma AcceptedInExact(i: Incident)
    ensures Check(EXACT, i).None? <==> Sound(i) && Conserved(i)
  {
    var objects, removals := i.trackedObjectManifest, Removals(i);
    ManifestExactly(objects);
    TotalInExact(objects);
    if ManifestError(objects, 0).None? {
      var blobs := AllBlobs(removals);
      RemoveAllExactly(objects, Sums({}, i.trackedPathsRemoved, i.trackedBytesRemoved), removals);
      AmongOthers(objects, AsSet(blobs));
      hide ManifestError, RemoveAll, BytesByBlob, Among, Others, Bytes, Total, AllBlobs, AsSet, Blobs, Paths, Declared,
           SoundObject, SoundRemoval, Weighed, Claimable;
      ClaimableFresh(objects, blobs);
      if Claimable(objects, {}, blobs) && forall r <- removals :: Weighed(objects, r) {
        WorthAlone(objects, {}, blobs);
        SizeOfClaim(objects, blobs);
        DeclaredAll(objects, removals);
      }
    }
  }

  lemma {:induction false} TotalInExact(objects: seq<Object>)
    ensures Total(EXACT, objects) == Bytes(objects)
  {
    if objects != [] {
      var n := |objects| - 1;
      TotalInExact(objects[..n]);
      assert objects == objects[..n] + [objects[n]];
      BytesAppend(objects[..n], [objects[n]]);
    }
  }

  lemma ClaimableFresh(objects: seq<Object>, blobs: seq<string>)
    ensures Claimable(objects, {}, blobs) <==> Distinct(blobs) && forall b <- blobs :: b in Blobs(objects)
  {
    hide Blobs;
  }

  lemma ManifestExactly(objects: seq<Object>)
    ensures ManifestError(objects, 0).None? <==>
            (forall o <- objects :: SoundObject(o)) && Distinct(Paths(objects)) && Distinct(Blobs(objects))
  {
    assert objects[..0] == [];
    ManifestFrom(objects, 0);
  }

  lemma SizeOfClaim(objects: seq<Object>, blobs: seq<string>)
    requires Distinct(Blobs(objects)) && Claimable(objects, {}, blobs)
    ensures |Among(objects, AsSet(blobs))| == |blobs|
  {
    NoneAmong(objects);
    hide Claimable, Blobs, Among, AsSet;
    WorthOfObjects(objects, {}, blobs);
    assert {} + AsSet(blobs) == AsSet(blobs);
  }

  lemma DeclaredAll(objects: seq<Object>, removals: seq<Removal>)
    requires Distinct(Blobs(objects)) && Claimable(objects, {}, AllBlobs(removals))
    requires forall r <- removals :: Weighed(objects, r)
    ensures Declared(removals) == Bytes(Among(objects, AsSet(AllBlobs(removals))))
  {
    NoneAmong(objects);
    DeclaredIsWorth(objects, {}, removals);
    assert {} + AsSet(AllBlobs(removals)) == AsSet(AllBlobs(removals));
  }
  // ---- the same with rounded numbers ----

  /** A rounded total follows the exact one up to the limit, and does not come back below it afterwards. */
  predicate Follows(exact: int, rounded: int)
  {
    0 <= exact && if exact <= LIMIT then rounded == exact else rounded >= LIMIT
  }

  lemma FollowsOn(round: Rounding, exact: int, rounded: int, more: int)
    requires Rounds(round) && Follows(exact, rounded) && more >= 0
    ensures Follows(exact + more, round(rounded + more))
  {
    if exact + more > LIMIT {
      assert LIMIT <= rounded + more;
      assert round(LIMIT) <= round(rounded + more);
    }
  }

  lemma {:induction false} TotalFollows(round: Rounding, objects: seq<Object>)
    requires Rounds(round) && forall o <- objects :: o.bytes >= 0
    ensures Follows(Bytes(objects), Total(round, objects))
  {
    if objects != [] {
      var n := |objects| - 1;
      assert objects == objects[..n] + [objects[n]];
      TotalFollows(round, objects[..n]);
      BytesAppend(objects[..n], [objects[n]]);
      hide Rounds, Follows;
      FollowsOn(round, Bytes(objects[..n]), Total(round, objects[..n]), objects[n].bytes);
    }
  }

  /** Which blobs are claimed does not depend on the numbers, and their weight follows the exact one. */
  lemma {:induction false} ClaimFollows(
      round: Rounding, m: map<string, int>, claimed: set<string>, exact: int, rounded: int, blobs: seq<string>)
    requires Rounds(round) && Follows(exact, rounded) && forall b <- m :: m[b] >= 0
    ensures var a, r := Claim(EXACT, m, claimed, exact, blobs), Claim(round, m, claimed, rounded, blobs);
            && (a.Ok? <==> r.Ok?) && (a.Ok? ==> a.value.0 == r.value.0 && Follows(a.value.1, r.value.1))
    decreases |blobs|
  {
    if blobs != [] && blobs[0] in m && blobs[0] !in claimed {
      var more := m[blobs[0]];
      FollowsOn(round, exact, rounded, more);
      hide Rounds, Follows;
      ClaimFollows(round, m, claimed + {blobs[0]}, exact + more, round(rounded + more), blobs[1..]);
    }
  }

  ghost predicate SumsFollow(a: Sums, r: Sums)
  {
    a.claimed == r.claimed && Follows(a.paths, r.paths) && Follows(a.bytes, r.bytes)
  }

  /** A removal below the limit is weighed alike. */
  lemma RemoveFollows(round: Rounding, m: map<string, int>, a: Sums, r: Sums, removal: Removal)
    requires Rounds(round) && SumsFollow(a, r) && forall b <- m :: m[b] >= 0
    ensures var a', r' := Remove(EXACT, m, a, removal), Remove(round, m, r, removal);
            (a'.Ok? <==> r'.Ok?) && (a'.Ok? ==> SumsFollow(a'.value, r'.value))
  {
    ClaimFollows(round, m, a.claimed, 0, 0, removal.gitBlobs);
    hide Claim, Rounds;
    if SoundRemoval(removal) {
      FollowsOn(round, a.paths, r.paths, removal.trackedPathsRemoved);
      FollowsOn(round, a.bytes, r.bytes, removal.trackedBytesRemoved);
    }
  }

  lemma {:induction false} RemoveAllFollows(round: Rounding, m: map<string, int>, a: Sums, r: Sums, removals: seq<Removal>)
    requires Rounds(round) && SumsFollow(a, r) && forall b <- m :: m[b] >= 0
    ensures var a', r' := RemoveAll(EXACT, m, a, removals), RemoveAll(round, m, r, removals);
            (a'.Ok? <==> r'.Ok?) && (a'.Ok? ==> SumsFollow(a'.value, r'.value))
    decreases |removals|
  {
    if removals != [] {
      RemoveFollows(round, m, a, r, removals[0]);
      hide Rounds, SumsFollow, Remove;
      var a', r' := Remove(EXACT, m, a, removals[0]), Remove(round, m, r, removals[0]);
      if a'.Ok? { RemoveAllFollows(round, m, a'.value, r'.value, removals[1..]); }
    }
  }

  lemma {:induction false} ValuesFromObjects(objects: seq<Object>)
    requires forall o <- objects :: o.bytes >= 0
    ensures forall b <- BytesByBlob(objects) :: BytesByBlob(objects)[b] >= 0
  {
    if objects != [] { ValuesFromObjects(objects[..|objects| - 1]); }
  }

  lemma {:induction false} CountBound(objects: seq<Object>)
    requires forall o <- objects :: o.bytes >= 1
    ensures |objects| <= Bytes(objects)
  {
    if objects != [] { CountBound(objects[1..]); }
  }

  lemma ContainedFollows(round: Rounding, i: Incident)
    requires Rounds(round) && i.trackedPathsRemoved >= 1 && i.trackedBytesRemoved >= 1
    requires forall o <- i.trackedObjectManifest :: o.bytes >= 0
    ensures var a, r := Contained(EXACT, i), Contained(round, i);
            (a.Ok? <==> r.Ok?) && (a.Ok? ==> SumsFollow(a.value, r.value))
  {
    ValuesFromObjects(i.trackedObjectManifest);
    var start := Sums({}, i.trackedPathsRemoved, i.trackedBytesRemoved);
    assert SumsFollow(start, start);
    hide Rounds, SumsFollow, RemoveAll, BytesByBlob;
    RemoveAllFollows(round, BytesByBlob(i.trackedObjectManifest), start, start, i.additionalTreeContainment);
  }
  lemma CheckFollows(round: Rounding, i: Incident)
    requires Rounds(round) && Bytes(i.trackedObjectManifest) < LIMIT
    ensures Check(round, i).None? <==> Check(EXACT, i).None?
  {
    var objects := i.trackedObjectManifest;
    if i.trackedPathsRemoved >= 1 && i.trackedBytesRemoved >= 1 && ManifestError(objects, 0).None? {
      ManifestExactly(objects);
      CountBound(objects);
      TotalFollows(round, objects);
      TotalInExact(objects);
      ContainedFollows(round, i);
      hide Rounds, ManifestError, Contained, Bytes, Total;
    }
  }

  /**
   An incident whose objects weigh less than 2^53 is accepted exactly when it is sound and nothing is
   lost or counted twice, whatever the rounding beyond that.
   */
  lemma AcceptedExactly(round: Rounding, i: Incident)
    requires Rounds(round) && Bytes(i.trackedObjectManifest) < LIMIT
    ensures Check(round, i).None? <==> Sound(i) && Conserved(i)
  {
    CheckFollows(round, i);
    AcceptedInExact(i);
  }

  /** The rounding of IEEE 754 as far as 2^53 + 1, a tie that goes to the even neighbour. */
  const TO_EVEN: Rounding := (n: int) => if n == LIMIT + 1 then LIMIT else n

  lemma ToEvenRounds()
    ensures Rounds(TO_EVEN) && TO_EVEN(LIMIT + 1) == LIMIT
  {
  }

  /** Two objects of 2^53 and 1 bytes, and a removal of 2^53. */
  function Oversized(): Incident
  {
    Incident(1, 2, LIMIT, [Object("a", "a", LIMIT, true), Object("b", "b", 1, true)], [])
  }

  /** At 2^53 the bound is needed: where 2^53 + 1 rounds to 2^53, as a double does, a byte is lost. */
  lemma RoundingLoses(round: Rounding)
    requires Rounds(round) && round(LIMIT + 1) == LIMIT
    ensures Check(round, Oversized()).None? && Sound(Oversized()) && !Conserved(Oversized())
  {
    var objects := Oversized().trackedObjectManifest;
    var a, b := Object("a", "a", LIMIT, true), Object("b", "b", 1, true);
    assert "a"[0] != "b"[0];
    assert Paths(objects) == ["a", "b"] && Blobs(objects) == ["a", "b"];
    ManifestExactly(objects);
    assert objects[..1] == [a] && [a][..0] == [];
    assert Total(round, [a]) == round(LIMIT) == LIMIT;
    assert Total(round, objects) == LIMIT;
    assert objects[1..] == [b] && Bytes([b]) == 1 && Bytes(objects) == LIMIT + 1;
    NoneAmong(objects);
    assert Removals(Oversized()) == [] && AsSet(AllBlobs([])) == {};
  }
}
