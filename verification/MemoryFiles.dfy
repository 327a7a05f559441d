/** Decoding the name of a project directory, in which every slash of a path became a dash, by looking at the file
  * system. What is a directory (`isDir`) and what exists (`present`) are parameters. */
module MemoryFiles {
  import opened Options

  type Probe = string -> bool

  predicate EndsInSlash(p: string) {
    p != "" && p[|p| - 1] == '/'
  }

  /** Joining paths as the standard library does: an absolute segment replaces the path. */
  function Join(path: string, segment: string): string {
    if segment != "" && segment[0] == '/' then segment
    else if EndsInSlash(path) then path + segment
    else path + "/" + segment
  }

  function TrimDashes(s: string): string {
    if s != "" && s[0] == '-' then TrimDashes(s[1..]) else s
  }

  // Is there a pair of dashes in front?
  predicate Pair(rest: string) {
    |rest| >= 2 && rest[0] == '-' && rest[1] == '-'
  }

  /** The probing from some path and segment on, with the rest of the name to come. */
  function ProbeFrom(rest: string, path: string, segment: string, isDir: Probe, present: Probe): Option<string> {
    if rest == "" then
      if segment != "" && present(Join(path, segment)) then Some(Join(path, segment)) else None
    else if Pair(rest) then
      if isDir(Join(path, segment)) then ProbeFrom(rest[2..], Join(path, segment), "@", isDir, present)
      else ProbeFrom(rest[2..], path, segment + "--", isDir, present)
    else if rest[0] == '-' then
      if segment != "" && isDir(Join(path, segment)) then ProbeFrom(rest[1..], Join(path, segment), "", isDir, present)
      else ProbeFrom(rest[1..], path, segment + "-", isDir, present)
    else ProbeFrom(rest[1..], path, segment + [rest[0]], isDir, present)
  }

  // ---- Encoding ----

  /** How the name is made: a scope marker becomes two dashes, any other slash becomes one. */
  function Encode(p: string): string {
    if p == "" then ""
    else if p[0] == '/' then
      if |p| > 1 && p[1] == '@' then "--" + Encode(p[2..]) else "-" + Encode(p[1..])
    else [p[0]] + Encode(p[1..])
  }

  lemma {:induction false} EncodeConcat(x: string, y: string)
    requires !(EndsInSlash(x) && y != "" && y[0] == '@')
    ensures Encode(x + y) == Encode(x) + Encode(y)
  {
    if x == "" {
      assert x + y == y;
    } else if x[0] == '/' && |x| > 1 && x[1] == '@' {
      assert (x + y)[2..] == x[2..] + y;
      EncodeConcat(x[2..], y);
    } else {
      assert (x + y)[1..] == x[1..] + y;
      EncodeConcat(x[1..], y);
    }
  }

  predicate Lacks(s: string, c: char) {
    forall i :: 0 <= i < |s| ==> s[i] != c
  }

  // The states the probing goes through: the segment is empty only right after a slash, and then no dash follows.
  ghost predicate State(rest: string, path: string, segment: string) {
    && Lacks(rest, '/') && Lacks(segment, '/')
    && (path == "/" || (path != "" && !EndsInSlash(path)))
    && (segment == "" && rest != "" ==> rest[0] != '-')
  }

  lemma JoinMore(path: string, segment: string, more: string)
    requires Lacks(segment, '/') && Lacks(more, '/')
    ensures Join(path, segment + more) == Join(path, segment) + more
  {
    assert segment != "" ==> segment[0] != '/';
    assert more != "" ==> more[0] != '/';
    if EndsInSlash(path) {
      assert path + (segment + more) == path + segment + more;
    } else {
      assert path + "/" + (segment + more) == path + "/" + segment + more;
    }
  }

  lemma {:induction false} NotInSlash(path: string, segment: string)
    requires Lacks(segment, '/') && segment != ""
    ensures Join(path, segment) != "" && !EndsInSlash(Join(path, segment))
  {
    assert Join(path, segment)[|Join(path, segment)| - 1] == segment[|segment| - 1];
  }

  /** One text is a reading of another: a pair of dashes is kept or read as a scope marker, a single dash is kept or
    * read as a slash, and all else is kept. */
  predicate Spells(text: string, name: string)
    decreases |name|
  {
    if name == "" then text == ""
    else if Pair(name) then |text| >= 2 && (text[..2] == "/@" || text[..2] == "--") && Spells(text[2..], name[2..])
    else
      text != "" && (text[0] == name[0] || (text[0] == '/' && name[0] == '-')) && Spells(text[1..], name[1..])
  }

  // One step of the reading, from x on.
  lemma SpellsMore(r: string, x: string, step: string, name: string)
    requires name != "" && |step| == (if Pair(name) then 2 else 1)
    requires if Pair(name) then step == "/@" || step == "--" else step == [name[0]] || (step == "/" && name[0] == '-')
    requires x + step <= r && Spells(r[|x + step|..], name[|step|..])
    ensures x <= r && Spells(r[|x|..], name)
  {
    assert r[|x|..][|step|..] == r[|x + step|..];
    assert r[|x|..][..|step|] == step;
    assert r[|x|..][0] == step[0];
  }

  /** What is found extends what has been read, by a reading of the rest. */
  lemma {:induction false} Extends(rest: string, path: string, segment: string, isDir: Probe, present: Probe)
    requires State(rest, path, segment)
    ensures var x, r := Join(path, segment), ProbeFrom(rest, path, segment, isDir, present);
      r.Some? ==> x <= r.value && Spells(r.value[|x|..], rest)
    decreases |rest|
  {
    hide Join, Spells;
    var x, r := Join(path, segment), ProbeFrom(rest, path, segment, isDir, present);
    if rest == "" {
      SpellsNothing(x);
    } else {
      var step := [rest[0]];
      if Pair(rest) {
        NotInSlash(path, segment);
        if isDir(x) {
          step := "/@";
          JoinDirectory(x, "@", step);
          Extends(rest[2..], x, "@", isDir, present);
        } else {
          step := "--";
          JoinMore(path, segment, step);
          Extends(rest[2..], path, segment + step, isDir, present);
        }
      } else if rest[0] == '-' && isDir(x) {
        NotInSlash(path, segment);
        step := "/";
        JoinDirectory(x, "", step);
        Extends(rest[1..], x, "", isDir, present);
      } else {
        JoinMore(path, segment, step);
        Extends(rest[1..], path, segment + step, isDir, present);
      }
      if r.Some? {
        SpellsMore(r.value, x, step, rest);
      }
    }
  }

  lemma SpellsNothing(x: string)
    ensures Spells(x[|x|..], "")
  {}

  lemma JoinDirectory(x: string, segment: string, step: string)
    requires Lacks(segment, '/') && x != "" && !EndsInSlash(x) && step == "/" + segment
    ensures Join(x, segment) == x + step
  {}

  // ---- Soundness ----

  /** Every part of a path in front of a slash is a directory. */
  ghost predicate InDirectories(p: string, isDir: Probe) {
    forall k :: 0 < k < |p| && p[k] == '/' ==> isDir(p[..k])
  }

  lemma JoinInDirectories(path: string, segment: string, isDir: Probe)
    requires Lacks(segment, '/') && InDirectories(path, isDir)
    requires path == "/" || (path != "" && !EndsInSlash(path) && isDir(path))
    ensures InDirectories(Join(path, segment), isDir)
  {
    var x := Join(path, segment);
    forall k | 0 < k < |x| && x[k] == '/' ensures isDir(x[..k]) {
      assert path == "/" ==> x == "/" + segment;
      if k < |path| {
        assert x[..k] == path[..k];
      } else {
        assert x == path + "/" + segment;
        assert x[..|path|] == path;
      }
    }
  }

  /** Whatever the file system: what is found exists and lies in directories. */
  lemma {:induction false} FoundIsSound(
    rest: string, path: string, segment: string, isDir: Probe, present: Probe)
    requires State(rest, path, segment) && InDirectories(path, isDir)
    requires path == "/" || isDir(path)
    ensures var r := ProbeFrom(rest, path, segment, isDir, present);
      r.Some? ==> present(r.value) && InDirectories(r.value, isDir)
    decreases |rest|
  {
    hide Join, InDirectories;
    var x := Join(path, segment);
    JoinInDirectories(path, segment, isDir);
    if rest == "" {
    } else if Pair(rest) {
      NotInSlash(path, segment);
      if isDir(x) {
        FoundIsSound(rest[2..], x, "@", isDir, present);
      } else {
        FoundIsSound(rest[2..], path, segment + "--", isDir, present);
      }
    } else if rest[0] == '-' && isDir(x) {
      NotInSlash(path, segment);
      FoundIsSound(rest[1..], x, "", isDir, present);
    } else {
      FoundIsSound(rest[1..], path, segment + [rest[0]], isDir, present);
    }
  }

  // ---- When a reading encodes to what was read ----

  /** A single dash in front of '@' was read as a slash: the encoding makes a pair of dashes of that. */
  predicate Misread(text: string, name: string) {
    exists i :: 0 <= i < |text| - 1 && MisreadAt(text, name, i)
  }

  predicate MisreadAt(text: string, name: string, i: nat) {
    i + 1 < |text| && i + 1 < |name| && text[i] == '/' && text[i + 1] == '@' && name[i + 1] == '@'
  }

  lemma MisreadTail(text: string, name: string, n: nat)
    requires |text| == |name| && n <= |text|
    requires forall i :: 0 <= i < n ==> !MisreadAt(text, name, i)
    ensures Misread(text, name) <==> Misread(text[n..], name[n..])
  {
    if Misread(text, name) {
      var i: nat :| i < |text| - 1 && MisreadAt(text, name, i);
      assert MisreadAt(text[n..], name[n..], i - n);
    }
    if Misread(text[n..], name[n..]) {
      var i: nat :| i < |text| - n - 1 && MisreadAt(text[n..], name[n..], i);
      assert MisreadAt(text, name, n + i);
    }
  }

  /** A reading encodes to what was read exactly if nothing was misread. */
  lemma {:induction false} ReadingEncodes(text: string, name: string)
    requires Spells(text, name) && Lacks(name, '/')
    ensures |text| == |name|
    ensures Encode(text) == name <==> !Misread(text, name)
    decreases |name|
  {
    if name != "" {
      hide Encode, Misread;
      var n := if Pair(name) then 2 else 1;
      ReadingEncodes(text[n..], name[n..]);
      assert text == text[..n] + text[n..] && name == name[..n] + name[n..];
      if Pair(name) {
        PairEncodes(text);
        MisreadTail(text, name, 2);
      } else if MisreadAt(text, name, 0) {
        MisreadDiffers(text, name);
      } else {
        SingleEncodes(text, name);
        MisreadTail(text, name, 1);
      }
    }
  }

  lemma MisreadDiffers(text: string, name: string)
    requires MisreadAt(text, name, 0)
    ensures Misread(text, name) && Encode(text) != name
  {
    assert Encode(text)[1] == '-';
  }

  lemma PairEncodes(text: string)
    requires |text| >= 2 && (text[..2] == "/@" || text[..2] == "--")
    ensures Encode(text) == "--" + Encode(text[2..])
  {
    assert text[0] == text[..2][0] && text[1] == text[..2][1];
    if text[0] == '-' {
      EncodePair(text);
    }
  }

  lemma SingleEncodes(text: string, name: string)
    requires Spells(text, name) && Lacks(name, '/') && name != "" && !Pair(name) && !MisreadAt(text, name, 0)
    requires |text| == |name|
    ensures Encode(text) == [name[0]] + Encode(text[1..])
  {}

  /** A slash was read from a dash. So a name in which no dash comes right before '@' is never misread. */
  lemma {:induction false} SlashWasDash(text: string, name: string, i: nat)
    requires Spells(text, name) && Lacks(name, '/') && i < |text| == |name| && text[i] == '/'
    ensures name[i] == '-'
    decreases |name|
  {
    var n := if Pair(name) then 2 else 1;
    if i >= n {
      assert text[n..][i - n] == '/';
      ReadingEncodes(text[n..], name[n..]);
      SlashWasDash(text[n..], name[n..], i - n);
    } else if Pair(name) {
      assert text[i] == text[..2][i];
    }
  }

  lemma Markers()
    ensures Encode("/@") == "--" && Encode("--") == "--" && Encode("/") == "-" && Encode("-") == "-"
  {
    assert "/@"[2..] == "" && "/"[1..] == "" && "-"[1..] == "" && "--"[1..] == "-";
  }

  // ---- The decoding loop ----

  function Decode(encoded: string, isDir: Probe, present: Probe): Option<string> {
    ProbeFrom(TrimDashes(encoded), "/", "", isDir, present)
  }

  lemma {:induction false} Trimmed(s: string, c: char)
    ensures TrimDashes(s) != "" ==> TrimDashes(s)[0] != '-'
    ensures Lacks(s, c) ==> Lacks(TrimDashes(s), c)
  {
    if s != "" && s[0] == '-' {
      assert Lacks(s, c) ==> Lacks(s[1..], c) by {
        forall i | Lacks(s, c) && 0 <= i < |s| - 1 ensures s[1..][i] != c {
          assert s[i + 1] != c;
        }
      }
      Trimmed(s[1..], c);
    }
  }

  /** What is found exists, lies in directories and is a reading of the name. */
  ghost predicate FoundFor(encoded: string, r: string, isDir: Probe, present: Probe) {
    var name := "-" + TrimDashes(encoded);
    && present(r) && InDirectories(r, isDir) && Spells(r, name)
    && (Encode(r) == name <==> !Misread(r, name))
  }

  lemma SoundDecode(encoded: string, isDir: Probe, present: Probe)
    requires Lacks(encoded, '/')
    ensures var r := Decode(encoded, isDir, present); r.Some? ==> FoundFor(encoded, r.value, isDir, present)
  {
    hide ProbeFrom, Encode, Misread, Spells;
    var r, rest := Decode(encoded, isDir, present), TrimDashes(encoded);
    Trimmed(encoded, '/');
    FromRoot();
    FoundIsSound(rest, "/", "", isDir, present);
    Extends(rest, "/", "", isDir, present);
    if r.Some? {
      assert ("-" + rest)[1..] == rest;
      SpellsMore(r.value, "", "/", "-" + rest);
      assert r.value[0..] == r.value;
      ReadingEncodes(r.value, "-" + rest);
    }
  }

  /** A name in which '@' never follows a dash is what the path found for it encodes to. */
  lemma NoLooseMarkers(encoded: string, isDir: Probe, present: Probe)
    requires Lacks(encoded, '/')
    requires var name := "-" + TrimDashes(encoded);
      forall i :: 0 <= i < |name| - 1 && name[i] == '-' ==> name[i + 1] != '@'
    ensures var r := Decode(encoded, isDir, present); r.Some? ==> Encode(r.value) == "-" + TrimDashes(encoded)
  {
    hide Decode, Encode, Spells, InDirectories;
    var r, name := Decode(encoded, isDir, present), "-" + TrimDashes(encoded);
    SoundDecode(encoded, isDir, present);
    Trimmed(encoded, '/');
    if r.Some? {
      ReadingEncodes(r.value, name);
      if Misread(r.value, name) {
        var i: nat :| i < |r.value| - 1 && MisreadAt(r.value, name, i);
        SlashWasDash(r.value, name, i);
        assert false;
      }
    }
  }

  // A step of the probing that reads a sign as it is.
  lemma ReadsSign(rest: string, path: string, segment: string, isDir: Probe, present: Probe)
    requires rest != "" && rest[0] != '-'
    ensures ProbeFrom(rest, path, segment, isDir, present) ==
      ProbeFrom(rest[1..], path, segment + [rest[0]], isDir, present)
  {}

  /** A name that does not come back: /a/@b is found for it, which encodes to another name. */
  lemma MisreadName(isDir: Probe, present: Probe)
    requires isDir("/a") && present("/a/@b")
    ensures Decode("-a-@b", isDir, present) == Some("/a/@b") && Encode("/a/@b") == "-a--b"
  {
    assert TrimDashes("-a-@b") == "a-@b" by {
      OneDash("a-@b");
      assert "-" + "a-@b" == "-a-@b";
    }
    ReadsSign("a-@b", "/", "", isDir, present);
    ReadsAsSlash(isDir, present);
    assert "a-@b"[1..] == "-@b" && "" + ['a'] == "a";
    assert "/a/@b"[1..] == "a/@b" && "a/@b"[1..] == "/@b" && "/@b"[2..] == "b" && "b"[1..] == "";
  }

  lemma ReadsAsSlash(isDir: Probe, present: Probe)
    requires isDir("/a") && present("/a/@b")
    ensures ProbeFrom("-@b", "/", "a", isDir, present) == Some("/a/@b")
  {
    assert Join("/", "a") == "/a" && Join("/a", "@b") == "/a/@b";
    assert "-@b"[1..] == "@b" && "@b"[1..] == "b" && "b"[1..] == "";
    assert "" + ['@'] == "@" && "@" + ['b'] == "@b";
    ReadsSign("@b", "/a", "", isDir, present);
    ReadsSign("b", "/a", "@", isDir, present);
  }

  method ProbeEncodedPath(encoded: string, isDir: Probe, present: Probe) returns (r: Option<string>)
    ensures r == Decode(encoded, isDir, present)
    ensures Lacks(encoded, '/') && r.Some? ==> FoundFor(encoded, r.value, isDir, present)
  {
    hide Join, FoundFor, Lacks;
    if Lacks(encoded, '/') {
      SoundDecode(encoded, isDir, present);
    }
    var chars := TrimDashes(encoded);
    var path, segment, i := "/", "", 0;
    while i < |chars|
      invariant i <= |chars|
      invariant Decode(encoded, isDir, present) == ProbeFrom(chars[i..], path, segment, isDir, present)
    {
      if chars[i] == '-' {
        if i + 1 < |chars| && chars[i + 1] == '-' {
          var testPath := Join(path, segment);
          if isDir(testPath) {
            path, segment, i := testPath, "@", i + 2;
            continue;
          }
          segment := segment + "--";
          i := i + 2;
          continue;
        }
        var testPath := Join(path, segment);
        if segment != "" && isDir(testPath) {
          path, segment := testPath, "";
        } else {
          segment := segment + "-";
        }
        i := i + 1;
      } else {
        segment := segment + [chars[i]];
        i := i + 1;
      }
    }
    if segment != "" {
      var finalPath := Join(path, segment);
      if present(finalPath) {
        return Some(finalPath);
      }
    }
    return None;
  }

  // ---- Which paths come back ----

  /** A path whose signs can be told apart once it is encoded: behind a slash comes a name or a scope marker, and the
    * dashes in front of a slash are pairs. */
  predicate Readable(q: string)
    decreases |q|
  {
    if q == "" then true
    else if q[0] == '/' then
      |q| > 1 && q[1] != '/' && q[1] != '-' && if q[1] == '@' then Readable(q[2..]) else Readable(q[1..])
    else if Pair(q) then Readable(q[2..])
    else (q[0] == '-' && |q| > 1 ==> q[1] != '/') && Readable(q[1..])
  }

  /** Behind x, every slash of q is at a directory, and no dash where the probing looks is. */
  predicate Clear(x: string, q: string, isDir: Probe)
    decreases |q|
  {
    if q == "" then true
    else if q[0] == '/' then
      isDir(x) && if |q| > 1 && q[1] == '@' then Clear(x + "/@", q[2..], isDir) else Clear(x + "/", q[1..], isDir)
    else if q[0] == '-' then
      !isDir(x) && if Pair(q) then Clear(x + "--", q[2..], isDir) else Clear(x + "-", q[1..], isDir)
    else Clear(x + [q[0]], q[1..], isDir)
  }

  lemma {:induction false} EncodedLacksSlash(q: string)
    ensures Lacks(Encode(q), '/')
  {
    if q != "" {
      if q[0] == '/' && |q| > 1 && q[1] == '@' {
        EncodedLacksSlash(q[2..]);
      } else {
        EncodedLacksSlash(q[1..]);
      }
    }
  }

  // What is read so far: the segment is empty only right after a slash, and then a name follows.
  ghost predicate Reading(path: string, segment: string, q: string) {
    && Lacks(segment, '/') && q + segment != ""
    && (path == "/" || (path != "" && !EndsInSlash(path)))
    && (segment == "" ==> q[0] != '-' && q[0] != '@' && q[0] != '/')
  }

  // Where the probing goes astray it does not come back.
  lemma Astray(rest: string, path: string, segment: string, p: string, isDir: Probe, present: Probe)
    requires State(rest, path, segment) && !(Join(path, segment) <= p)
    ensures ProbeFrom(rest, path, segment, isDir, present) != Some(p)
  {
    Extends(rest, path, segment, isDir, present);
  }

  lemma FirstStays(q: string)
    requires q != "" && q[0] != '/'
    ensures Encode(q) != "" && Encode(q)[0] == q[0]
  {}

  lemma EncodePair(q: string)
    requires Pair(q)
    ensures Encode(q) == "--" + Encode(q[2..])
  {
    assert q == "--" + q[2..];
    EncodeConcat("--", q[2..]);
    Markers();
  }

  // A dash or a slash and what follows it make a pair of dashes that is none in the path.
  predicate Blurs(q: string) {
    |q| > 1 && ((q[0] == '/' && (q[1] == '/' || q[1] == '-')) || (q[0] == '-' && q[1] == '/'))
  }

  predicate Marked(q: string) {
    |q| > 1 && q[0] == '/' && q[1] == '@'
  }

  // How the first signs of a path are encoded.
  lemma EncodeFirst(q: string)
    requires q != ""
    ensures Marked(q) || Pair(q) ==> Encode(q) == "--" + Encode(q[2..])
    ensures Blurs(q) ==> Pair(Encode(q))
    ensures !Marked(q) && !Pair(q) ==> Encode(q) == [if q[0] == '/' then '-' else q[0]] + Encode(q[1..])
    ensures !Marked(q) && !Pair(q) && !Blurs(q) ==> !Pair(Encode(q))
  {
    if Pair(q) {
      EncodePair(q);
    } else if |q| > 1 && q[1] != '/' {
      FirstStays(q[1..]);
    }
  }

  /** From any state of the reading, the probing finds the path it is reading exactly if its signs can be told apart, it
    * exists, and nothing on its way misleads. */
  lemma {:induction false} FindsClear(path: string, segment: string, q: string, isDir: Probe, present: Probe)
    requires Reading(path, segment, q)
    ensures var x := Join(path, segment);
      ProbeFrom(Encode(q), path, segment, isDir, present) == Some(x + q) <==>
        Readable(q) && Clear(x, q, isDir) && present(x + q)
    decreases |q|
  {
    hide Join, Encode;
    var x, rest := Join(path, segment), Encode(q);
    if q == "" {
      assert x + q == x && rest == "" by { EncodeEmpty(); }
      return;
    }
    EncodeFirst(q);
    EncodedLacksSlash(q);
    EncodedLacksSlash(q[1..]);
    if Blurs(q) || ((Marked(q) || Pair(q)) && isDir(x) != Marked(q)) {
      assert q[..2] == [q[0], q[1]];
      PairAstray(path, segment, q, isDir, present);
    } else if Marked(q) || Pair(q) {
      NotInSlash(path, segment);
      JoinDirectory(x, "@", "/@");
      JoinMore(path, segment, "--");
      EncodedLacksSlash(q[2..]);
      assert q == q[..2] + q[2..] && x + q == x + q[..2] + q[2..];
      assert q[..2] == if Marked(q) then "/@" else "--";
      if isDir(x) {
        FindsClear(x, "@", q[2..], isDir, present);
      } else {
        FindsClear(path, segment + "--", q[2..], isDir, present);
      }
    } else if q[0] == '/' {
      NotInSlash(path, segment);
      JoinDirectory(x, "", "/");
      JoinMore(path, segment, "-");
      assert x + q == x + "/" + q[1..];
      if !isDir(x) {
        Deviates(x, q, "-");
        Astray(rest[1..], path, segment + "-", x + q, isDir, present);
      } else if q == "/" {
        assert rest[1..] == "" by { EncodeEmpty(); }
      } else {
        FindsClear(x, "", q[1..], isDir, present);
      }
    } else {
      var c := [q[0]];
      JoinMore(path, segment, c);
      assert x + q == x + c + q[1..];
      if q[0] == '-' && isDir(x) {
        NotInSlash(path, segment);
        JoinDirectory(x, "", "/");
        Deviates(x, q, "/");
        Astray(rest[1..], x, "", x + q, isDir, present);
      } else {
        FindsClear(path, segment + c, q[1..], isDir, present);
      }
    }
  }

  // What was read last is not what comes next.
  lemma Deviates(x: string, q: string, step: string)
    requires 0 < |step| && (|step| <= |q| ==> q[..|step|] != step)
    ensures !(x + step <= x + q)
  {
    assert (x + q)[|x|..] == q && (x + step)[|x|..] == step;
  }

  // A pair of dashes that is read as something else than what comes next.
  lemma PairAstray(path: string, segment: string, q: string, isDir: Probe, present: Probe)
    requires Reading(path, segment, q) && Pair(Encode(q))
    requires |q| > 1 && q[..2] != if isDir(Join(path, segment)) then "/@" else "--"
    requires q[0] == '/' || q[0] == '-'
    ensures ProbeFrom(Encode(q), path, segment, isDir, present) != Some(Join(path, segment) + q)
  {
    hide Join, Encode;
    var x, rest := Join(path, segment), Encode(q);
    EncodedLacksSlash(q);
    NotInSlash(path, segment);
    JoinDirectory(x, "@", "/@");
    JoinMore(path, segment, "--");
    Deviates(x, q, if isDir(x) then "/@" else "--");
    Astray(rest[2..], if isDir(x) then x else path, if isDir(x) then "@" else segment + "--", x + q, isDir, present);
  }

  lemma EncodeEmpty()
    ensures Encode("") == ""
  {}

  /** Any path at all comes back exactly if it is absolute, starts with a name, can be read, exists, and has its slashes
    * at directories and no dash where the probing looks. */
  lemma RoundTrip(p: string, isDir: Probe, present: Probe)
    ensures Decode(Encode(p), isDir, present) == Some(p) <==>
      && Readable(p) && |p| > 1 && p[0] == '/' && p[1] != '@'
      && Clear("/", p[1..], isDir) && present(p)
  {
    hide ProbeFrom, Clear, Readable;
    EncodedLacksSlash(p);
    EncodeLength(p);
    Trimmed(Encode(p), '/');
    FromRoot();
    Extends(TrimDashes(Encode(p)), "/", "", isDir, present);
    if |p| > 1 && p[0] == '/' && p[1] != '@' && p[1] != '-' && p[1] != '/' {
      var q := p[1..];
      FirstStays(q);
      assert Encode(p) == "-" + Encode(q);
      OneDash(Encode(q));
      assert "/" + q == p;
      ReadableName(p);
      FindsClear("/", "", q, isDir, present);
    } else {
      Unspellable(p, isDir, present);
    }
  }

  lemma ReadableName(p: string)
    requires |p| > 1 && p[0] == '/' && p[1] != '@' && p[1] != '-' && p[1] != '/'
    ensures Readable(p) <==> Readable(p[1..])
  {}

  lemma {:induction false} EncodeLength(p: string)
    ensures |Encode(p)| == |p|
  {
    if p != "" {
      EncodeLength(p[1..]);
      if Marked(p) {
        EncodeLength(p[2..]);
      }
    }
  }

  // Nothing comes back that does not start with a slash and a name.
  lemma Unspellable(p: string, isDir: Probe, present: Probe)
    requires !(|p| > 1 && p[0] == '/' && p[1] != '@' && p[1] != '-' && p[1] != '/')
    ensures Decode(Encode(p), isDir, present) != Some(p)
    ensures !(Readable(p) && |p| > 1 && p[0] == '/' && p[1] != '@')
  {
    hide ProbeFrom, Spells;
    var rest := TrimDashes(Encode(p));
    EncodedLacksSlash(p);
    Trimmed(Encode(p), '/');
    FromRoot();
    Extends(rest, "/", "", isDir, present);
    EncodeLength(p);
    if |p| > 1 && p[0] == '/' {
      EncodeFirst(p);
      Shorter(Encode(p));
      var r := Decode(Encode(p), isDir, present);
      if r.Some? {
        ReadingEncodes(r.value[1..], rest);
      }
    } else if p == "" || p == "/" {
      EncodesToNothing(p, isDir, present);
    }
  }

  lemma EncodesToNothing(p: string, isDir: Probe, present: Probe)
    requires p == "" || p == "/"
    ensures Decode(Encode(p), isDir, present) == None
  {
    assert "/"[1..] == "" && "-"[1..] == "";
    assert TrimDashes(Encode(p)) == "";
  }

  lemma {:induction false} TrimShortens(s: string)
    ensures |TrimDashes(s)| <= |s|
  {
    if s != "" && s[0] == '-' {
      TrimShortens(s[1..]);
    }
  }

  lemma Shorter(s: string)
    requires Pair(s)
    ensures |TrimDashes(s)| <= |s| - 2
  {
    TrimShortens(s[2..]);
    assert s[1..][1..] == s[2..];
  }

  lemma FromRoot()
    ensures Join("/", "") == "/"
  {}

  lemma OneDash(s: string)
    requires s != "" && s[0] != '-'
    ensures TrimDashes("-" + s) == s
  {
    assert ("-" + s)[1..] == s;
  }

  /** How many dashes end right before a place. */
  function DashesBefore(q: string, i: nat): nat
    requires i <= |q|
  {
    if i == 0 || q[i - 1] != '-' then 0 else 1 + DashesBefore(q, i - 1)
  }

  predicate ReadableAt(q: string, i: nat)
    requires i < |q|
  {
    q[i] == '/' ==> i + 1 < |q| && q[i + 1] != '/' && q[i + 1] != '-' && DashesBefore(q, i) % 2 == 0
  }

  lemma {:induction false} DashesInTail(q: string, n: nat, i: nat)
    requires n + i <= |q| && (DashesBefore(q, n) % 2 == 0 || (i > 0 && q[n] != '-'))
    ensures DashesBefore(q, n + i) % 2 == DashesBefore(q[n..], i) % 2
  {
    if i > 0 && q[n + i - 1] == '-' {
      DashesInTail(q, n, i - 1);
    }
  }

  lemma FirstDashes(q: string)
    requires q != ""
    ensures DashesBefore(q, 0) == 0 && DashesBefore(q, 1) == if q[0] == '-' then 1 else 0
    ensures Marked(q) ==> DashesBefore(q, 2) == 0
    ensures Pair(q) ==> DashesBefore(q, 2) == 2
  {}

  /** A path can be read exactly if every slash is followed by something other than a slash or a dash, and an even
    * number of dashes ends right before it. */
  lemma {:induction false} ReadableExactly(q: string)
    ensures Readable(q) <==> forall i: nat :: i < |q| ==> ReadableAt(q, i)
    decreases |q|
  {
    if q != "" {
      var n := if Marked(q) || Pair(q) then 2 else 1;
      ReadableExactly(q[n..]);
      FirstDashes(q);
      forall i: nat | i < |q| - n && !Blurs(q) ensures ReadableAt(q, n + i) <==> ReadableAt(q[n..], i) {
        if q[n + i] == '/' {
          DashesInTail(q, n, i);
        }
      }
      if Blurs(q) {
        var i := if q[0] == '/' then 0 else 1;
        assert !ReadableAt(q, i);
      } else {
        assert n == 2 ==> ReadableAt(q, 1);
        if forall i: nat :: i < |q| ==> ReadableAt(q, i) {
          assert ReadableAt(q, 0);
          forall i: nat | i < |q| - n ensures ReadableAt(q[n..], i) {
            assert ReadableAt(q, n + i);
          }
        }
        if Readable(q) {
          forall i: nat | i < |q| ensures ReadableAt(q, i) {
            if i >= n {
              assert ReadableAt(q[n..], i - n);
            }
          }
        }
      }
    }
  }

  /** It is enough that every part of the path in front of a slash is a directory, and none in front of a dash is. */
  lemma {:induction false} ClearEnough(x: string, q: string, isDir: Probe)
    requires forall k :: 0 <= k < |q| && q[k] == '/' ==> isDir(x + q[..k])
    requires forall k :: 0 <= k < |q| && q[k] == '-' ==> !isDir(x + q[..k])
    ensures Clear(x, q, isDir)
    decreases |q|
  {
    if q != "" {
      assert x + q[..0] == x;
      var n := if (q[0] == '/' && |q| > 1 && q[1] == '@') || Pair(q) then 2 else 1;
      forall k | 0 <= k < |q| - n
        ensures q[n..][k] == '/' ==> isDir(x + q[..n] + q[n..][..k])
        ensures q[n..][k] == '-' ==> !isDir(x + q[..n] + q[n..][..k])
      {
        assert q[n..][k] == q[n + k] && x + q[..n] + q[n..][..k] == x + q[..n + k];
      }
      ClearEnough(x + q[..n], q[n..], isDir);
      assert n == 1 ==> q[..1] == [q[0]];
      assert n == 2 ==> q[..2] == [q[0], q[1]];
    }
  }
}
