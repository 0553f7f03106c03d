/** The tokeniser every router variant runs on a command message:
    `n = sscanf(msg_text, "%s %s %[^\n]", cmd, roomname, text)`, following the
    rules of `fscanf` in section 7.21.6.2 of ISO/IEC 9899:2011 (C11):
    `%s` skips white space and reads a maximal run of non-white-space,
    a white-space directive skips zero or more white-space characters,
    `%[^\n]` reads one or more characters other than '\n' (and does not skip
    white space), and the result is the number of items assigned, or EOF when
    the input ends before the first conversion. The end of the input is the
    end of the C string, so the input here is the text before its NUL. */
module Scanf {
  import opened CText

  /** The value `sscanf` returns when the input fails before the first conversion. */
  const EOF: int := -1

  /** The count `n` and the three tokens; a token that was not assigned is
      the empty string here. */
  datatype Scanned = Scanned(n: int, cmd: string, room: string, text: string)

  /** A token `%[^\n]` reads right after a white-space directive: non-empty,
      newline-free, and not starting with white space. */
  predicate TextToken(s: string) {
    |s| > 0 && !IsSpace(s[0]) && forall k :: 0 <= k < |s| ==> s[k] != '\n'
  }

  /** `sscanf(s, "%s %s %[^\n]", cmd, roomname, text)`. */
  function ScanCommand(s: string): (r: Scanned)
    ensures r.n == EOF || r.n == 1 || r.n == 2 || r.n == 3
    ensures r.n == EOF <==> AllSpace(s)
    ensures if r.n >= 1 then Word(r.cmd) else r.cmd == ""
    ensures if r.n >= 2 then Word(r.room) else r.room == ""
    ensures if r.n == 3 then TextToken(r.text) else r.text == ""
  {
    // %s: skip white space; at the end of the input nothing was converted: EOF.
    var r0 := SkipSpace(s);
    if r0 == [] then
      assert s[..|s|] == s;
      Scanned(EOF, "", "", "")
    else
      assert !AllSpace(s) by { assert s[|s| - |r0|] == r0[0]; }
      var (cmd, a) := SplitWord(r0);
      // " %s": the directive and the conversion both skip white space.
      var r1 := SkipSpace(a);
      if r1 == [] then Scanned(1, cmd, "", "")
      else
        var (room, b) := SplitWord(r1);
        // " %[^\n]": after the skip the next character is neither space nor '\n'.
        var r2 := SkipSpace(b);
        if r2 == [] then Scanned(2, cmd, room, "")
        else
          var (text, _) := SplitLine(r2);
          assert text[0] == r2[0];
          Scanned(3, cmd, room, text)
  }

  /** The tokens fit the router's `char cmd[10], roomname[50], text[200]`
      (room for the terminating NUL); a longer token overflows its buffer. */
  predicate FitsBuffers(r: Scanned) {
    |r.cmd| < 10 && |r.room| < 50 && |r.text| < 200
  }

  // ---- round trips: a message built from tokens scans back to them ----

  /** Three tokens separated by white space, with optional leading white
      space and, after the text, nothing or a line break: `n == 3` and the
      tokens come back unchanged. */
  lemma ScanThree(lead: string, cmd: string, sep1: string, room: string,
                  sep2: string, text: string, tail: string)
    requires AllSpace(lead) && Word(cmd) && Word(room) && TextToken(text)
    requires |sep1| > 0 && AllSpace(sep1) && |sep2| > 0 && AllSpace(sep2)
    requires tail == [] || tail[0] == '\n'
    ensures ScanCommand(lead + cmd + sep1 + room + sep2 + text + tail) == Scanned(3, cmd, room, text)
  {
    var t5 := text + tail;
    var t4 := sep2 + t5;
    var t3 := room + t4;
    var t2 := sep1 + t3;
    var t1 := cmd + t2;
    SkipSpaceOver(lead, t1);
    assert t2[0] == sep1[0];
    SplitWordOver(cmd, t2);
    assert t3[0] == room[0];
    SkipSpaceOver(sep1, t3);
    assert t4[0] == sep2[0];
    SplitWordOver(room, t4);
    assert t5[0] == text[0];
    SkipSpaceOver(sep2, t5);
    SplitLineOver(text, tail);
    Regroup7(lead, cmd, sep1, room, sep2, text, tail);
  }

  /** The shape every client of the router sends, `"<cmd> <room> <text>"`
      (app/clientmt.cpp builds it with "say %s %s" and "dm %s %s"). */
  lemma ScanCommandLine(cmd: string, room: string, text: string)
    requires Word(cmd) && Word(room) && TextToken(text)
    ensures ScanCommand(cmd + " " + room + " " + text) == Scanned(3, cmd, room, text)
  {
    ScanThree("", cmd, " ", room, " ", text, "");
    var line := cmd + " " + room + " " + text;
    assert "" + cmd == cmd;
    assert "" + cmd + " " + room + " " + text == line;
    assert line + "" == line;
  }

  /** Two tokens followed only by white space: `n == 2`, no text. */
  lemma ScanTwo(lead: string, cmd: string, sep: string, room: string, trail: string)
    requires AllSpace(lead) && Word(cmd) && |sep| > 0 && AllSpace(sep) && Word(room) && AllSpace(trail)
    ensures ScanCommand(lead + cmd + sep + room + trail) == Scanned(2, cmd, room, "")
  {
    var t3 := room + trail;
    var t2 := sep + t3;
    var t1 := cmd + t2;
    SkipSpaceOver(lead, t1);
    assert t2[0] == sep[0];
    SplitWordOver(cmd, t2);
    assert t3[0] == room[0];
    SkipSpaceOver(sep, t3);
    SplitWordOver(room, trail);
    SkipSpaceOver(trail, []);
    assert trail + [] == trail;
    Regroup5(lead, cmd, sep, room, trail);
  }

  /** One token followed only by white space: `n == 1`. */
  lemma ScanOne(lead: string, cmd: string, trail: string)
    requires AllSpace(lead) && Word(cmd) && AllSpace(trail)
    ensures ScanCommand(lead + cmd + trail) == Scanned(1, cmd, "", "")
  {
    var t1 := cmd + trail;
    SkipSpaceOver(lead, t1);
    SplitWordOver(cmd, trail);
    SkipSpaceOver(trail, []);
    assert trail + [] == trail;
    SeqAssoc(lead, cmd, trail);
  }

  /** A message `cmd room` scans to those two tokens. */
  lemma ScanVerbRoom(cmd: string, room: string)
    requires Word(cmd) && Word(room)
    ensures ScanCommand(cmd + " " + room) == Scanned(2, cmd, room, "")
  {
    ScanTwo("", cmd, " ", room, "");
    var line := cmd + " " + room;
    assert "" + cmd == cmd;
    assert "" + cmd + " " + room == line;
    assert line + "" == line;
  }

  /** A message that is one token and white space scans to that token. */
  lemma ScanVerb(cmd: string, trail: string)
    requires Word(cmd) && AllSpace(trail)
    ensures ScanCommand(cmd + trail) == Scanned(1, cmd, "", "")
  {
    ScanOne("", cmd, trail);
    assert "" + cmd == cmd;
  }

  /** The routers' verbs are `%s` tokens. */
  lemma VerbsAreWords()
    ensures Word("join") && Word("leave") && Word("say") && Word("dm")
    ensures Word("help") && Word("pulse") && Word("Pulse")
  {
  }

  // ---- regrouping concatenations ----

  lemma Regroup5(a: string, b: string, c: string, d: string, e: string)
    ensures a + (b + (c + (d + e))) == a + b + c + d + e
  {
    SeqAssoc(a, b, c + (d + e));
    SeqAssoc(a + b, c, d + e);
    SeqAssoc(a + b + c, d, e);
  }

  lemma Regroup7(a: string, b: string, c: string, d: string, e: string, f: string, g: string)
    ensures a + (b + (c + (d + (e + (f + g))))) == a + b + c + d + e + f + g
  {
    SeqAssoc(a, b, c + (d + (e + (f + g))));
    SeqAssoc(a + b, c, d + (e + (f + g)));
    SeqAssoc(a + b + c, d, e + (f + g));
    SeqAssoc(a + b + c + d, e, f + g);
    SeqAssoc(a + b + c + d + e, f, g);
  }
}
