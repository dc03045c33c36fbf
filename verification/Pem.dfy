// PEM text: base64 in lines of 64 characters between two labelled boundaries.
module Pem {
  import opened Options
  import opened Text

  predicate IsBase64Text(s: string) {
    forall i :: 0 <= i < |s| ==>
                  'A' <= s[i] <= 'Z' || 'a' <= s[i] <= 'z' || '0' <= s[i] <= '9' || s[i] in "+/="
  }

  // The text of a series of lines, each ended by "\r\n" or "\n".
  function Lines(lines: seq<string>, crlf: bool): string {
    if lines == [] then "" else lines[0] + (if crlf then "\r\n" else "\n") + Lines(lines[1..], crlf)
  }

  function StripReturn(line: string): string {
    if line != "" && line[|line| - 1] == '\r' then line[..|line| - 1] else line
  }

  function StripReturns(lines: seq<string>): seq<string> {
    if lines == [] then [] else [StripReturn(lines[0])] + StripReturns(lines[1..])
  }

  // The lines of a text, whichever of the two line ends it uses.
  function ReadLines(text: string): seq<string> {
    var parts := Split(text, '\n');
    StripReturns(parts[..|parts| - 1])
  }

  function Joined(lines: seq<string>): string {
    if lines == [] then "" else lines[0] + Joined(lines[1..])
  }

  // The base64 between the boundaries of the given label name.
  function ReadPem(text: string, name: string): Option<string> {
    var lines := ReadLines(text);
    if |lines| < 2 || lines[0] != Begin(name) || lines[|lines| - 1] != End(name) then None
    else Some(Joined(lines[1..|lines| - 1]))
  }

  function Begin(name: string): string {
    "-----BEGIN " + name + "-----"
  }

  function End(name: string): string {
    "-----END " + name + "-----"
  }

  predicate PlainLine(line: string) {
    '\n' !in line && '\r' !in line
  }

  predicate PlainLines(lines: seq<string>) {
    forall i :: 0 <= i < |lines| ==> PlainLine(lines[i])
  }

  lemma {:induction false} LinesReadBack(lines: seq<string>, crlf: bool)
    requires PlainLines(lines)
    ensures ReadLines(Lines(lines, crlf)) == lines
  {
    if lines != [] {
      LinesReadBack(lines[1..], crlf);
      var line := if crlf then lines[0] + "\r" else lines[0];
      var rest := Lines(lines[1..], crlf);
      assert PlainLine(lines[0]);
      assert Lines(lines, crlf) == line + "\n" + rest;
      SplitJoin(line, '\n', rest);
      var parts := Split(rest, '\n');
      var all := [line] + parts;
      assert all[..|all| - 1] == [line] + parts[..|parts| - 1];
      assert StripReturn(line) == lines[0];
    }
  }

  // Lines of 64 characters, a shorter one only at the end (RFC 7468 section 2).
  predicate WrappedAt64(lines: seq<string>) {
    && (forall i :: 0 <= i < |lines| - 1 ==> |lines[i]| == 64)
    && (lines != [] ==> 0 < |lines[|lines| - 1]| <= 64)
  }

  lemma {:induction false} JoinedAppend(lines: seq<string>, line: string)
    ensures Joined(lines + [line]) == Joined(lines) + line
  {
    if lines == [] {
      assert (lines + [line])[1..] == [];
    } else {
      JoinedAppend(lines[1..], line);
      assert (lines + [line])[1..] == lines[1..] + [line];
    }
  }

  lemma {:induction false} LinesAppend(lines: seq<string>, line: string, crlf: bool)
    ensures Lines(lines + [line], crlf) == Lines(lines, crlf) + line + (if crlf then "\r\n" else "\n")
  {
    if lines == [] {
      assert (lines + [line])[1..] == [];
    } else {
      LinesAppend(lines[1..], line, crlf);
      assert (lines + [line])[1..] == lines[1..] + [line];
    }
  }

  // The base64 text up to the offset is wrapped into the body's lines.
  ghost predicate Wrapping(base64: string, offset: nat, body: seq<string>) {
    && Joined(body) == (if offset < |base64| then base64[..offset] else base64)
    && WrappedAt64(body) && PlainLines(body)
    && (offset < |base64| ==> forall i :: 0 <= i < |body| ==> |body[i]| == 64)
  }

  lemma WrapOneMore(base64: string, offset: nat, length: nat, body: seq<string>)
    requires IsBase64Text(base64) && Wrapping(base64, offset, body)
    requires offset < |base64| && length == if 64 < |base64| - offset then 64 else |base64| - offset
    ensures Wrapping(base64, offset + 64, body + [base64[offset..offset + length]])
  {
    var line := base64[offset..offset + length];
    JoinedAppend(body, line);
    assert base64[..offset + length] == base64[..offset] + line;
    assert offset + length == |base64| ==> base64[..offset + length] == base64;
  }

  // The base64 text is what an encoder produces, the name one line.
  method ConvertToPem(base64: string, name: string, crlf: bool) returns (text: string, ghost body: seq<string>)
    requires IsBase64Text(base64) && PlainLine(name)
    ensures text == Lines(["-----BEGIN " + name + "-----"] + body + ["-----END " + name + "-----"], crlf)
    ensures WrappedAt64(body) && Joined(body) == base64
    ensures ReadPem(text, name) == Some(base64)
  {
    var builder := Begin(name) + (if crlf then "\r\n" else "\n");
    body := [];
    LinesAppend([], Begin(name), crlf);
    var offset := 0;
    while offset < |base64|
      invariant offset < |base64| + 64 && Wrapping(base64, offset, body)
      invariant builder == Lines([Begin(name)] + body, crlf)
    {
      var length := if 64 < |base64| - offset then 64 else |base64| - offset;
      var line := base64[offset..offset + length];
      WrapOneMore(base64, offset, length, body);
      LinesAppend([Begin(name)] + body, line, crlf);
      assert [Begin(name)] + body + [line] == [Begin(name)] + (body + [line]);
      builder := builder + line + (if crlf then "\r\n" else "\n");
      body := body + [line];
      offset := offset + 64;
    }
    LinesAppend([Begin(name)] + body, End(name), crlf);
    text := builder + End(name) + (if crlf then "\r\n" else "\n");
    PemReadsBack(body, name, crlf);
  }

  lemma PemReadsBack(body: seq<string>, name: string, crlf: bool)
    requires PlainLines(body) && PlainLine(name)
    ensures ReadPem(Lines([Begin(name)] + body + [End(name)], crlf), name) == Some(Joined(body))
  {
    var lines := [Begin(name)] + body + [End(name)];
    forall i | 0 <= i < |lines| ensures PlainLine(lines[i]) {
      BoundariesArePlain(name);
    }
    LinesReadBack(lines, crlf);
    assert lines[1..|lines| - 1] == body;
  }

  lemma BoundariesArePlain(name: string)
    requires PlainLine(name)
    ensures PlainLine(Begin(name)) && PlainLine(End(name))
  {
  }
}
