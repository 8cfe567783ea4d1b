/** Received files on disk: each is written to a temporary file that is renamed into
    place or removed, once (internal/files/files.go, DirReceiver and writer). */
module Folder {
  import opened Basics
  import opened Naming

  type Handle = nat

  datatype Writer = Writer(temp: string, name: string, done: bool)

  /** The folder's files by name, and every writer ever begun. */
  datatype Disk = Disk(files: map<string, Bytes>, writers: map<Handle, Writer>, begun: nat)

  /** The name of a temporary file, around a random part. */
  function TempName(random: string): string {
    ".voidbridge-" + random + ".part"
  }

  /** Begin: a fresh temporary file, unless none can be created. */
  function Begin(d: Disk, random: Option<string>, name: seq<Rune>): (Disk, Option<Handle>) {
    if random.None? || TempName(random.value) in d.files then (d, None)
    else
      var temp := TempName(random.value);
      (Disk(d.files[temp := []], d.writers[d.begun := Writer(temp, SafeName(name), false)], d.begun + 1), Some(d.begun))
  }

  predicate Open(d: Disk, h: Handle) {
    h in d.writers && !d.writers[h].done
  }

  /** What has been written through a writer that is still open. */
  function Written(d: Disk, h: Handle): Option<Bytes> {
    if Open(d, h) && d.writers[h].temp in d.files then Some(d.files[d.writers[h].temp]) else None
  }

  /** Write: refused once the writer is done; `short` holds how many bytes a failing
      write still got out. */
  function Write(d: Disk, h: Handle, p: Bytes, short: Option<nat>): (Disk, bool) {
    match Written(d, h)
    case None => (d, false)
    case Some(content) =>
      var q := if short.Some? && short.value < |p| then p[..short.value] else p;
      (d.(files := d.files[d.writers[h].temp := content + q]), short.None?)
  }

  function Close(d: Disk, h: Handle): Disk
    requires h in d.writers
  {
    d.(writers := d.writers[h := d.writers[h].(done := true)])
  }

  function Remove(d: Disk, name: string): Disk {
    d.(files := d.files - {name})
  }

  /** Commit: close, pick an unused name, rename; on any failure the temporary file goes. */
  function Commit(d: Disk, h: Handle, closes: bool, renames: bool): (Disk, Option<string>) {
    match Written(d, h)
    case None => (d, None)
    case Some(content) =>
      var w := d.writers[h];
      var final := UniqueName(d.files.Keys, w.name);
      if !closes || !renames then (Remove(Close(d, h), w.temp), None)
      else (Remove(Close(d, h), w.temp).(files := (d.files - {w.temp})[final := content]), Some(final))
  }

  /** Abort: close and remove the temporary file; nothing once done. */
  function Abort(d: Disk, h: Handle): Disk {
    if Open(d, h) then Remove(Close(d, h), d.writers[h].temp) else d
  }

  /** Open writers own distinct temporary files, and handles are counted. */
  ghost predicate Sound(d: Disk) {
    && (forall h | h in d.writers :: h < d.begun)
    && (forall h | Open(d, h) :: d.writers[h].temp in d.files)
    && (forall h, k | Open(d, h) && Open(d, k) && d.writers[h].temp == d.writers[k].temp :: h == k)
  }

  lemma BeginKeepsSound(d: Disk, random: Option<string>, name: seq<Rune>)
    requires Sound(d)
    ensures Sound(Begin(d, random, name).0)
  {
    hide SafeName;
  }

  lemma WriteKeepsSound(d: Disk, h: Handle, p: Bytes, short: Option<nat>)
    requires Sound(d)
    ensures Sound(Write(d, h, p, short).0)
  {}

  lemma CommitKeepsSound(d: Disk, h: Handle, closes: bool, renames: bool)
    requires Sound(d)
    ensures Sound(Commit(d, h, closes, renames).0)
  {
    hide UniqueName;
  }

  lemma AbortKeepsSound(d: Disk, h: Handle)
    requires Sound(d)
    ensures Sound(Abort(d, h))
  {}

  /** A commit adds one file under a name that was free, takes the temporary one away
      and leaves every other file as it was. */
  lemma CommitReplacesNothing(d: Disk, h: Handle)
    requires Sound(d) && Open(d, h)
    ensures var (d', final) := Commit(d, h, true, true);
            && final.Some? && final.value !in d.files && !Open(d', h)
            && d'.files == (d.files - {d.writers[h].temp})[final.value := Written(d, h).value]
            && d.writers[h].temp !in d'.files
  {
    UniqueNameIsFree(d.files.Keys, d.writers[h].name);
  }

  /** However it ends, an open writer ends once, its temporary file is gone, and no
      later write, commit or abort through it does anything. */
  lemma EndsOnce(d: Disk, h: Handle, closes: bool, renames: bool, p: Bytes, short: Option<nat>, c: bool, r: bool)
    requires Sound(d) && Open(d, h)
    ensures forall d' | d' == Commit(d, h, closes, renames).0 || d' == Abort(d, h) ::
      && !Open(d', h) && d.writers[h].temp !in d'.files
      && Write(d', h, p, short) == (d', false) && Commit(d', h, c, r) == (d', None) && Abort(d', h) == d'
  {
    UniqueNameIsFree(d.files.Keys, d.writers[h].name);
  }

  /** A write through an open writer adds all its bytes, or if it fails those it still got
      out, and touches nothing else. */
  lemma WritesExactly(d: Disk, h: Handle, p: Bytes, short: Option<nat>)
    requires Written(d, h).Some?
    ensures var (d', ok) := Write(d, h, p, short);
            var n := if short.Some? && short.value < |p| then short.value else |p|;
            && (ok <==> short.None?) && Written(d', h) == Some(Written(d, h).value + p[..n])
            && d'.writers == d.writers && d'.begun == d.begun
            && forall f | f in d.files && f != d.writers[h].temp :: f in d'.files && d'.files[f] == d.files[f]
  {
    assert p[..|p|] == p;
  }

  // ---- Nothing is left behind, nothing else is touched ----

  predicate Dotted(f: string) {
    f != "" && f[0] == '.'
  }

  ghost predicate Owned(d: Disk, f: string) {
    exists h :: Open(d, h) && d.writers[h].temp == f
  }

  /** Of a folder that held `base` at first: those files are still there as they were, and
      a dotted file is one of them or belongs to an open writer. */
  ghost predicate Tidy(d: Disk, base: map<string, Bytes>) {
    && (forall f | f in base :: f in d.files && d.files[f] == base[f])
    && (forall f | f in d.files && Dotted(f) :: f in base || Owned(d, f))
    && (forall h | h in d.writers :: d.writers[h].temp !in base && Dotted(d.writers[h].temp)
                                     && d.writers[h].name != "" && !Dotted(d.writers[h].name))
  }

  lemma {:induction false} ExtIsDotted(s: string)
    ensures Ext(s) != "" ==> Ext(s)[0] == '.'
  {
    if s != "" { ExtIsDotted(s[1..]); }
  }

  lemma UniqueIsUndotted(taken: set<string>, name: string)
    requires name != "" && !Dotted(name)
    ensures !Dotted(UniqueName(taken, name))
  {
    ExtIsDotted(name);
    hide FirstFree;
    var c := Candidate(name, FirstFree(taken, name, 2));
    assert Ext(name) != name;
    assert Stem(name) != "";
    assert c[0] == name[0];
  }

  lemma BeginTidy(d: Disk, base: map<string, Bytes>, random: Option<string>, name: seq<Rune>)
    requires Sound(d) && Tidy(d, base)
    ensures Tidy(Begin(d, random, name).0, base)
  {
    SafeNameIsSafe(name);
    hide SafeName;
    var d' := Begin(d, random, name).0;
    forall f | f in d'.files && Dotted(f) ensures f in base || Owned(d', f) {
      if f in d.files && Owned(d, f) {
        var h :| Open(d, h) && d.writers[h].temp == f;
        assert Open(d', h) && d'.writers[h].temp == f;
      } else if f !in d.files {
        assert Open(d', d.begun) && d'.writers[d.begun].temp == f;
      }
    }
  }

  lemma WriteTidy(d: Disk, base: map<string, Bytes>, h: Handle, p: Bytes, short: Option<nat>)
    requires Tidy(d, base)
    ensures Tidy(Write(d, h, p, short).0, base)
  {
    var d' := Write(d, h, p, short).0;
    assert forall k :: Open(d', k) == Open(d, k);
    assert forall f | Owned(d, f) :: Owned(d', f);
  }

  /** A writer closes, its temporary file goes, and others keep theirs. */
  lemma CloseOwned(d: Disk, h: Handle, f: string)
    requires Sound(d) && Open(d, h) && Owned(d, f) && f != d.writers[h].temp
    ensures Owned(Close(d, h), f)
  {
    var k :| Open(d, k) && d.writers[k].temp == f;
    assert Open(Close(d, h), k);
  }

  lemma AbortTidy(d: Disk, base: map<string, Bytes>, h: Handle)
    requires Sound(d) && Tidy(d, base)
    ensures Tidy(Abort(d, h), base)
  {
    if Open(d, h) {
      var d' := Abort(d, h);
      forall f | f in d'.files && Dotted(f) ensures f in base || Owned(d', f) {
        if f !in base {
          CloseOwned(d, h, f);
          assert forall k :: Open(d', k) == Open(Close(d, h), k);
        }
      }
    }
  }

  lemma CommitTidy(d: Disk, base: map<string, Bytes>, h: Handle, closes: bool, renames: bool)
    requires Sound(d) && Tidy(d, base)
    ensures Tidy(Commit(d, h, closes, renames).0, base)
  {
    if Written(d, h).Some? {
      UniqueIsUndotted(d.files.Keys, d.writers[h].name);
      UniqueNameIsFree(d.files.Keys, d.writers[h].name);
      hide UniqueName;
      var d' := Commit(d, h, closes, renames).0;
      forall f | f in d'.files && Dotted(f) ensures f in base || Owned(d', f) {
        if f !in base {
          assert f in d.files && f != d.writers[h].temp;
          CloseOwned(d, h, f);
          assert forall k :: Open(d', k) == Open(Close(d, h), k);
        }
      }
    }
  }

  /** The folder as it runs. */
  class Directory {
    var files: map<string, Bytes>
    var writers: map<Handle, Writer>
    var begun: nat

    constructor (files: map<string, Bytes>)
      ensures State() == Disk(files, map[], 0)
    {
      this.files, writers, begun := files, map[], 0;
    }

    function State(): Disk reads this {
      Disk(files, writers, begun)
    }

    method BeginFile(random: Option<string>, name: seq<Rune>) returns (h: Option<Handle>)
      modifies this
      ensures (State(), h) == Begin(old(State()), random, name)
    {
      hide SafeName, TempName;
      if random.None? {
        return None;
      }
      var temp := TempName(random.value);
      if temp in files {
        return None;
      }
      files := files[temp := []];
      writers := writers[begun := Writer(temp, SafeName(name), false)];
      h := Some(begun);
      begun := begun + 1;
    }

    method WriteFile(h: Handle, p: Bytes, short: Option<nat>) returns (ok: bool)
      requires Sound(State())
      modifies this
      ensures (State(), ok) == Write(old(State()), h, p, short) && Sound(State())
    {
      WriteKeepsSound(State(), h, p, short);
      if h !in writers || writers[h].done {
        return false;
      }
      var temp := writers[h].temp;
      assert Open(State(), h);
      var q := if short.Some? && short.value < |p| then p[..short.value] else p;
      files := files[temp := files[temp] + q];
      ok := short.None?;
    }

    method CommitFile(h: Handle, closes: bool, renames: bool) returns (final: Option<string>)
      requires Sound(State())
      modifies this
      ensures (State(), final) == Commit(old(State()), h, closes, renames) && Sound(State())
    {
      CommitKeepsSound(State(), h, closes, renames);
      hide UniqueName;
      if h !in writers || writers[h].done {
        return None;
      }
      assert Open(State(), h);
      var w := writers[h];
      writers := writers[h := w.(done := true)];
      if !closes {
        files := files - {w.temp};
        return None;
      }
      var name := UniquePath(files.Keys, w.name);
      if !renames {
        files := files - {w.temp};
        return None;
      }
      files := (files - {w.temp})[name := files[w.temp]];
      final := Some(name);
    }

    method AbortFile(h: Handle)
      modifies this
      ensures State() == Abort(old(State()), h)
    {
      if h !in writers || writers[h].done {
        return;
      }
      writers := writers[h := writers[h].(done := true)];
      files := files - {writers[h].temp};
    }
  }
}
