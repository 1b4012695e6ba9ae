/** What an upload leaves in the target file: the plain path truncates the placeholder and
    writes the frames of the request one after another; the compressed path receives a gzip
    file in the same way and then unpacks it over the placeholder without truncating it. */
module UploadContent {
  import opened Common
  import opened Relay

  /** The content of a file after writing `data` at `offset`; what lies behind stays. */
  function Overlay(content: Bytes, offset: nat, data: Bytes): Bytes
    requires offset <= |content|
  {
    content[..offset] + data + (if offset + |data| < |content| then content[offset + |data|..] else [])
  }

  lemma OverlayAppend(content: Bytes, offset: nat, a: Bytes, b: Bytes)
    requires offset <= |content|
    ensures offset + |a| <= |Overlay(content, offset, a)|
    ensures Overlay(Overlay(content, offset, a), offset + |a|, b) == Overlay(content, offset, a + b)
  {
  }

  /** An open file with its write position. */
  class OpenFile {
    var content: Bytes
    var offset: nat
    var failed: bool

    ghost predicate Valid()
      reads this
    {
      offset <= |content|
    }

    /** Opened for writing: `File::create` truncates, the plain write mode does not. */
    constructor (before: Bytes, truncate: bool)
      ensures Valid() && offset == 0 && !failed
      ensures content == if truncate then [] else before
    {
      content := if truncate then [] else before;
      offset, failed := 0, false;
    }

    /** A failing write may have written a part. */
    method WriteAll(data: Bytes) returns (ok: bool)
      requires Valid()
      modifies this
      ensures Valid()
      ensures ok ==> failed == old(failed) && offset == old(offset) + |data|
      ensures ok ==> content == Overlay(old(content), old(offset), data)
      ensures !ok ==> failed
    {
      var n := |data|;
      ok := *;
      if !ok {
        n :| 0 <= n <= |data|;
        failed := true;
      }
      assert data[..|data|] == data;
      content := Overlay(content, offset, data[..n]);
      offset := offset + n;
    }
  }

  /** The bytes that arrive in front of the first error. */
  function Received(frames: seq<Unit>): Bytes {
    if frames == [] || frames[0].Fault? then [] else frames[0].bytes + Received(frames[1..])
  }

  predicate Intact(frames: seq<Unit>) { forall i :: 0 <= i < |frames| ==> frames[i].Data? }

  lemma {:induction false} ReceivedSnoc(frames: seq<Unit>, last: Unit)
    requires Intact(frames) && last.Data?
    ensures Received(frames + [last]) == Received(frames) + last.bytes
  {
    if frames == [] {
      assert [last][1..] == [];
      assert Received([last]) == last.bytes + Received([]);
    } else {
      assert (frames + [last])[1..] == frames[1..] + [last];
      ReceivedSnoc(frames[1..], last);
    }
  }

  lemma {:induction false} ReceivedIsPayload(frames: seq<Unit>)
    requires Intact(frames)
    ensures Received(frames) == Payload(frames)
  {
    if frames == [] {
    } else {
      var rest := frames[..|frames| - 1];
      ReceivedIsPayload(rest);
      ReceivedSnoc(rest, frames[|frames| - 1]);
      assert rest + [frames[|frames| - 1]] == frames;
    }
  }

  lemma {:induction false} ReceivedStopsAtFault(front: seq<Unit>, rest: seq<Unit>)
    requires Intact(front) && (rest == [] || rest[0].Fault?)
    ensures Received(front + rest) == Received(front)
  {
    if front == [] {
      assert front + rest == rest;
    } else {
      assert (front + rest)[1..] == front[1..] + rest;
      ReceivedStopsAtFault(front[1..], rest);
    }
  }

  /** The receiving loop of an upload: it ends at the first error, in the body or in writing. */
  method ReceiveFrames(file: OpenFile, frames: seq<Unit>)
    requires file.Valid() && !file.failed
    modifies file
    ensures file.Valid()
    ensures !file.failed ==> file.content == Overlay(old(file.content), old(file.offset), Received(frames))
  {
    var i := 0;
    assert Overlay(file.content, file.offset, []) == file.content;
    while i < |frames| && frames[i].Data?
      invariant i <= |frames| && Intact(frames[..i])
      invariant file.Valid() && !file.failed
      invariant file.offset == old(file.offset) + |Received(frames[..i])|
      invariant file.content == Overlay(old(file.content), old(file.offset), Received(frames[..i]))
    {
      var ok := file.WriteAll(frames[i].bytes);
      if !ok { return; }
      ReceivedSnoc(frames[..i], frames[i]);
      OverlayAppend(old(file.content), old(file.offset), Received(frames[..i]), frames[i].bytes);
      assert frames[..i + 1] == frames[..i] + [frames[i]];
      i := i + 1;
    }
    assert frames[..i] + frames[i..] == frames;
    ReceivedStopsAtFault(frames[..i], frames[i..]);
  }

  /** Unpacking `packed` into an opened file: the decoder writes its output in pieces of any
      size; if the input is corrupt it fails after having written something. */
  method InternalUnzip(packed: Bytes, dest: OpenFile, inflate: Bytes -> Option<Bytes>) returns (r: Result<(), ()>)
    requires dest.Valid() && dest.offset == 0 && !dest.failed
    modifies dest
    ensures r.Ok? ==> inflate(packed).Some? && dest.content == Overlay(old(dest.content), 0, inflate(packed).value)
    ensures r.Err? ==> inflate(packed).None? || dest.failed
  {
    var output := inflate(packed);
    if output.None? {
      var garbled: Bytes := *;
      var _ := dest.WriteAll(garbled);
      return Err(());
    }
    var data := output.value;
    var done := 0;
    assert Overlay(dest.content, 0, []) == dest.content;
    while done < |data|
      invariant done <= |data| && dest.Valid() && !dest.failed && dest.offset == done
      invariant dest.content == Overlay(old(dest.content), 0, data[..done])
    {
      var n :| 0 < n <= |data| - done;
      var ok := dest.WriteAll(data[done..done + n]);
      if !ok { return Err(()); }
      OverlayAppend(old(dest.content), 0, data[..done], data[done..done + n]);
      assert data[..done] + data[done..done + n] == data[..done + n];
      done := done + n;
    }
    assert data[..|data|] == data;
    r := Ok(());
  }

  // ---------- What a finished upload leaves behind ----------

  const PLACEHOLDER_TEXT := "# Web-ssh-tool try to create file here. Don't edit/move/delete this file"

  /** The placeholder as bytes; its characters are all ASCII. */
  function Placeholder(): (p: Bytes)
    ensures |p| == |PLACEHOLDER_TEXT| > 0
  {
    seq(|PLACEHOLDER_TEXT|, i requires 0 <= i < |PLACEHOLDER_TEXT| => (PLACEHOLDER_TEXT[i] as int) % 256)
  }

  /** A codec: unpacking what was packed gives it back. */
  ghost predicate Codec(deflate: Bytes -> Bytes, inflate: Bytes -> Option<Bytes>) {
    forall b :: inflate(deflate(b)) == Some(b)
  }

  /** The plain path: with no read and no write error the target holds exactly the file. */
  method PlainUpload(bytes: Bytes, frames: seq<Unit>) returns (target: OpenFile)
    requires Intact(frames) && Payload(frames) == bytes
    ensures !target.failed ==> target.content == bytes
  {
    target := new OpenFile(Placeholder(), true);
    ReceivedIsPayload(frames);
    ReceiveFrames(target, frames);
  }

  /** The compressed path: with no read and no write error the target holds the file's bytes,
      followed by the placeholder's tail past that length. */
  method CompressedUpload(bytes: Bytes, frames: seq<Unit>,
                          ghost deflate: Bytes -> Bytes, inflate: Bytes -> Option<Bytes>)
    returns (target: OpenFile, temp: OpenFile, r: Result<(), ()>)
    requires Codec(deflate, inflate)
    requires Intact(frames) && Payload(frames) == deflate(bytes)
    ensures !temp.failed ==> temp.content == deflate(bytes)
    ensures !temp.failed && r.Ok? ==> target.content == Unpacked(bytes)
    ensures !temp.failed && !target.failed ==> r.Ok?
  {
    temp := new OpenFile([], true);
    ReceivedIsPayload(frames);
    ReceiveFrames(temp, frames);
    target := new OpenFile(Placeholder(), false);
    r := InternalUnzip(temp.content, target, inflate);
  }

  function Unpacked(bytes: Bytes): Bytes { Overlay(Placeholder(), 0, bytes) }

  /** The compressed path leaves exactly the file if and only if the file is at least as long
      as the placeholder; a shorter one is followed by the rest of the placeholder. */
  lemma ExactIffLongEnough(bytes: Bytes)
    ensures Unpacked(bytes) == bytes <==> |bytes| >= |PLACEHOLDER_TEXT|
    ensures |bytes| < |PLACEHOLDER_TEXT| ==> Unpacked(bytes) == bytes + Placeholder()[|bytes|..]
  {
  }
}
