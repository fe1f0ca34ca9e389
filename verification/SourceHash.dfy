/** The byte string that stands for a source tree in its hash. */
module SourceHash {
  import opened Wrappers
  import opened Frames

  const DIGEST := 32

  datatype Entry = Entry(path: seq<Byte>, digest: seq<Byte>)

  /** File names hold no NUL byte. */
  predicate Proper(e: Entry) {
    |e.digest| == DIGEST && 0 !in e.path
  }

  predicate AllProper(es: seq<Entry>) { forall i :: 0 <= i < |es| ==> Proper(es[i]) }

  function EncodeOne(e: Entry): seq<Byte> { e.path + [0] + e.digest + [0] }

  function Encode(es: seq<Entry>): seq<Byte> {
    if es == [] then [] else EncodeOne(es[0]) + Encode(es[1..])
  }

  /** Where the first NUL byte is, or the end. */
  function FirstNul(b: seq<Byte>): (n: nat)
    ensures n <= |b| && 0 !in b[..n] && (n < |b| ==> b[n] == 0)
  {
    if b == [] || b[0] == 0 then 0
    else
      var n := FirstNul(b[1..]);
      assert b[..n + 1] == [b[0]] + b[1..][..n];
      n + 1
  }


  function Decode(b: seq<Byte>): Option<seq<Entry>>
    decreases |b|
  {
    if b == [] then Some([])
    else
      var n := FirstNul(b);
      if |b| < n + DIGEST + 2 || b[n + DIGEST + 1] != 0 then None
      else
        match Decode(b[n + DIGEST + 2..])
        case None => None
        case Some(rest) => Some([Entry(b[..n], b[n + 1..n + DIGEST + 1])] + rest)
  }

  lemma {:induction false} FirstNulAfter(path: seq<Byte>, rest: seq<Byte>)
    requires 0 !in path && rest != [] && rest[0] == 0
    ensures FirstNul(path + rest) == |path|
  {
    if path == [] {
      assert path + rest == rest;
    } else {
      assert (path + rest)[1..] == path[1..] + rest;
      FirstNulAfter(path[1..], rest);
    }
  }

  /** The bytes determine the list of paths and digests. */
  lemma {:induction false} DecodeInverts(es: seq<Entry>)
    requires AllProper(es)
    ensures Decode(Encode(es)) == Some(es)
    decreases |es|
  {
    if es != [] {
      hide Decode, EncodeOne;
      assert Proper(es[0]);
      DecodeInverts(es[1..]);
      DecodeFirst(es[0], Encode(es[1..]));
      assert [es[0]] + es[1..] == es;
    }
  }

  lemma DecodeFirst(e: Entry, tail: seq<Byte>)
    requires Proper(e) && Decode(tail).Some?
    ensures Decode(EncodeOne(e) + tail) == Some([e] + Decode(tail).value)
  {
    var b, n := EncodeOne(e) + tail, |e.path|;
    assert b == e.path + ([0] + e.digest + [0] + tail);
    FirstNulAfter(e.path, [0] + e.digest + [0] + tail);
    assert b[..n] == e.path;
    assert b[n + 1..n + DIGEST + 1] == e.digest;
    assert b[n + DIGEST + 2..] == tail;
  }

  /** And only such byte strings are decoded. */
  lemma {:induction false} EncodeInverts(b: seq<Byte>)
    requires Decode(b).Some?
    ensures AllProper(Decode(b).value) && Encode(Decode(b).value) == b
    decreases |b|
  {
    if b != [] {
      var n, es := FirstNul(b), Decode(b).value;
      var tail := b[n + DIGEST + 2..];
      EncodeInverts(tail);
      assert es == [es[0]] + Decode(tail).value;
      assert es[1..] == Decode(tail).value;
      Pieces(b, n);
    }
  }

  lemma Pieces(b: seq<Byte>, n: nat)
    requires n + DIGEST + 2 <= |b| && b[n] == 0 && b[n + DIGEST + 1] == 0
    ensures b == EncodeOne(Entry(b[..n], b[n + 1..n + DIGEST + 1])) + b[n + DIGEST + 2..]
  {
    assert b[n + 1..] == b[n + 1..n + DIGEST + 1] + [0] + b[n + DIGEST + 2..];
  }

  lemma SameBytesSameTree(a: seq<Entry>, b: seq<Entry>)
    requires AllProper(a) && AllProper(b) && Encode(a) == Encode(b)
    ensures a == b
  {
    DecodeInverts(a);
    DecodeInverts(b);
  }

  datatype File = File(path: seq<Byte>, content: seq<Byte>)

  function Entries(files: seq<File>, sha: seq<Byte> -> seq<Byte>): seq<Entry> {
    seq(|files|, i requires 0 <= i < |files| => Entry(files[i].path, sha(files[i].content)))
  }

  lemma {:induction false} EncodeAppends(es: seq<Entry>, e: Entry)
    ensures Encode(es + [e]) == Encode(es) + EncodeOne(e)
    decreases |es|
  {
    if es == [] {
      assert es + [e] == [e] && [e][1..] == [];
    } else {
      assert (es + [e])[1..] == es[1..] + [e];
      EncodeAppends(es[1..], e);
    }
  }

  /** The loop that feeds the hash, file by file in the listed order. */
  method Feed(files: seq<File>, sha: seq<Byte> -> seq<Byte>) returns (fed: seq<Byte>)
    ensures fed == Encode(Entries(files, sha))
  {
    fed := [];
    for i := 0 to |files|
      invariant fed == Encode(Entries(files[..i], sha))
    {
      var digest := sha(files[i].content);
      EncodeAppends(Entries(files[..i], sha), Entry(files[i].path, digest));
      assert Entries(files[..i + 1], sha) == Entries(files[..i], sha) + [Entry(files[i].path, digest)];
      fed := fed + files[i].path;
      fed := fed + [0];
      fed := fed + digest;
      fed := fed + [0];
    }
    assert files[..|files|] == files;
  }

  /** Trees that feed the same bytes have the same files, unless two of their contents
      share a digest. */
  lemma SameHashSameFiles(a: seq<File>, b: seq<File>, sha: seq<Byte> -> seq<Byte>)
    requires forall i :: 0 <= i < |a| ==> |sha(a[i].content)| == DIGEST && 0 !in a[i].path
    requires forall i :: 0 <= i < |b| ==> |sha(b[i].content)| == DIGEST && 0 !in b[i].path
    requires NoCollision(a, b, sha)
    requires Encode(Entries(a, sha)) == Encode(Entries(b, sha))
    ensures a == b
  {
    var x, y := Entries(a, sha), Entries(b, sha);
    assert AllProper(x) && AllProper(y);
    SameBytesSameTree(x, y);
    assert |a| == |b|;
    forall i | 0 <= i < |a| ensures a[i] == b[i] {
      assert x[i] == y[i];
    }
  }

  predicate NoCollision(a: seq<File>, b: seq<File>, sha: seq<Byte> -> seq<Byte>) {
    forall i, j :: 0 <= i < |a| && 0 <= j < |b| && sha(a[i].content) == sha(b[j].content) ==>
      a[i].content == b[j].content
  }

  /** Where two different contents share a digest, two one-file trees feed the same bytes. */
  lemma CollisionGoesUnnoticed(path: seq<Byte>, x: seq<Byte>, y: seq<Byte>, sha: seq<Byte> -> seq<Byte>)
    requires x != y
    ensures sha(x) == sha(y) <==>
            Encode(Entries([File(path, x)], sha)) == Encode(Entries([File(path, y)], sha))
  {
    EncodeOneFile(path, x, sha);
    EncodeOneFile(path, y, sha);
    if path + [0] + sha(x) + [0] == path + [0] + sha(y) + [0] {
      var a, b := path + [0] + sha(x) + [0], path + [0] + sha(y) + [0];
      assert sha(x) == a[|path| + 1..|a| - 1] && sha(y) == b[|path| + 1..|b| - 1];
    }
  }

  lemma EncodeOneFile(path: seq<Byte>, content: seq<Byte>, sha: seq<Byte> -> seq<Byte>)
    ensures Encode(Entries([File(path, content)], sha)) == path + [0] + sha(content) + [0]
  {
    var es := Entries([File(path, content)], sha);
    assert es == [es[0]] && es[1..] == [];
  }
}
