/** Notices are passed on with a newline at the end.  Even if there is no memory left to add one they
    are, in pieces, through a buffer of fixed size. */
module Notices {
  import Text = StringConversion

  const SEPARATOR: string := "[...]\n"
  const BUFFER_SIZE: nat := 1007

  /** The size of a piece: the separator with its terminating NUL must fit behind it. */
  const PIECE: nat := BUFFER_SIZE - (|SEPARATOR| + 1) - 1

  predicate EndsInNewline(s: string) {
    s != "" && s[|s| - 1] == '\n'
  }

  function WithNewline(s: string): string {
    if EndsInNewline(s) then s else s + "\n"
  }

  // ---------- The pieces of a message ----------

  function Pieces(msg: string): (pieces: seq<string>)
    ensures |pieces| > 0
    decreases |msg|
  {
    if |msg| <= PIECE then [WithNewline(msg)] else [msg[..PIECE] + SEPARATOR] + Pieces(msg[PIECE..])
  }

  /** What the pieces are pieces of: all but the last have a separator at the end. */
  function Content(pieces: seq<string>): string {
    if pieces == [] then ""
    else if |pieces| == 1 then pieces[0]
    else (if |pieces[0]| >= |SEPARATOR| then pieces[0][..|pieces[0]| - |SEPARATOR|] else pieces[0]) + Content(pieces[1..])
  }

  /** Each piece ends in a newline and fits the buffer; all but the last are full, and end in the
      separator; and without the separators they are the message, with a newline at its end. */
  lemma {:induction false} PiecesAreTheMessage(msg: string)
    requires msg != ""
    ensures Content(Pieces(msg)) == WithNewline(msg)
    ensures forall p :: p in Pieces(msg) ==> EndsInNewline(p) && |p| < BUFFER_SIZE
    ensures forall k :: 0 <= k < |Pieces(msg)| - 1 ==>
              |Pieces(msg)[k]| == PIECE + |SEPARATOR| == BUFFER_SIZE - 2 && Pieces(msg)[k][PIECE..] == SEPARATOR
    ensures (|Pieces(msg)| - 1) * PIECE < |msg| <= |Pieces(msg)| * PIECE
    decreases |msg|
  {
    if |msg| > PIECE {
      var rest := msg[PIECE..];
      var first := msg[..PIECE] + SEPARATOR;
      PiecesAreTheMessage(rest);
      assert Pieces(msg) == [first] + Pieces(rest);
      assert first[..PIECE] == msg[..PIECE] && first[PIECE..] == SEPARATOR;
      assert Pieces(msg)[1..] == Pieces(rest);
      assert msg == msg[..PIECE] + rest;
      assert WithNewline(msg) == msg[..PIECE] + WithNewline(rest);
    }
  }

  // ---------- C strings ----------

  /** The text in a buffer, up to its NUL. */
  function UpToNul(buf: seq<char>): Text.CString {
    if buf == [] || buf[0] == '\0' then "" else [buf[0]] + UpToNul(buf[1..])
  }

  lemma {:induction false} UpToNulOf(s: Text.CString, rest: seq<char>)
    ensures UpToNul(s + ['\0'] + rest) == s
    decreases |s|
  {
    if s != "" {
      var tail: Text.CString := s[1..];
      UpToNulOf(tail, rest);
      assert (s + ['\0'] + rest)[1..] == tail + ['\0'] + rest;
    }
  }

  /** strcpy() */
  method CopyString(buf: array<char>, at: nat, s: Text.CString)
    requires at + |s| < buf.Length
    modifies buf
    ensures buf[..at] == old(buf[..at]) && buf[at..at + |s| + 1] == s + ['\0']
  {
    var i := 0;
    while i < |s|
      invariant 0 <= i <= |s|
      invariant buf[..at] == old(buf[..at]) && buf[at..at + i] == s[..i]
    {
      buf[at + i] := s[i];
      i := i + 1;
    }
    buf[at + |s|] := '\0';
  }

  /** memcpy() */
  method CopyBytes(buf: array<char>, s: string, from: nat, n: nat)
    requires from + n <= |s| && n <= buf.Length
    modifies buf
    ensures buf[..n] == s[from..from + n] && buf[n..] == old(buf[n..])
  {
    var i := 0;
    while i < n
      invariant 0 <= i <= n
      invariant buf[..i] == s[from..from + i] && buf[n..] == old(buf[n..])
    {
      buf[i] := s[from + i];
      i := i + 1;
    }
  }

  // ---------- Passing notices on ----------

  /** Pass the message on in pieces; the error handlers are shown what out gets. */
  method ProcessInPieces(msg: Text.CString) returns (out: seq<string>)
    requires msg != "" && !EndsInNewline(msg)
    ensures out == Pieces(msg)
  {
    var buf := new char[BUFFER_SIZE];
    var bytes := BUFFER_SIZE - (|SEPARATOR| + 1) - 1;
    var written := 0;
    out := [];
    CopyString(buf, bytes, SEPARATOR);
    while written + bytes < |msg|
      invariant 0 <= written < |msg| && bytes == PIECE
      invariant buf[PIECE..PIECE + |SEPARATOR| + 1] == SEPARATOR + ['\0']
      invariant out + Pieces(msg[written..]) == Pieces(msg)
    {
      CopyBytes(buf, msg, written, bytes);
      FullPiece(buf[..], msg, written);
      out := out + [UpToNul(buf[..])];
      written := written + bytes;
    }
    bytes := |msg| - written;
    CopyBytes(buf, msg, written, bytes);
    var end: Text.CString := if buf[bytes - 1] == '\n' then "" else "\n";
    CopyString(buf, bytes, end);
    LastPiece(buf[..], msg, written, end);
    out := out + [UpToNul(buf[..])];
  }

  lemma FullPiece(buf: seq<char>, msg: Text.CString, written: nat)
    requires |buf| == BUFFER_SIZE && written + PIECE < |msg|
    requires buf[..PIECE] == msg[written..written + PIECE] && buf[PIECE..PIECE + |SEPARATOR| + 1] == SEPARATOR + ['\0']
    ensures Pieces(msg[written..]) == [UpToNul(buf)] + Pieces(msg[written + PIECE..])
  {
    var piece: Text.CString := msg[written..written + PIECE] + SEPARATOR;
    assert buf == buf[..PIECE] + buf[PIECE..PIECE + |SEPARATOR| + 1] + buf[PIECE + |SEPARATOR| + 1..];
    assert buf == piece + ['\0'] + buf[PIECE + |SEPARATOR| + 1..];
    UpToNulOf(piece, buf[PIECE + |SEPARATOR| + 1..]);
    assert msg[written..][..PIECE] == msg[written..written + PIECE];
    assert msg[written..][PIECE..] == msg[written + PIECE..];
  }

  lemma LastPiece(buf: seq<char>, msg: Text.CString, written: nat, end: Text.CString)
    requires |buf| == BUFFER_SIZE && written < |msg| <= written + PIECE
    requires var bytes := |msg| - written;
             && bytes + |end| < |buf| && buf[..bytes] == msg[written..] && buf[bytes..bytes + |end| + 1] == end + ['\0']
             && end == if buf[bytes - 1] == '\n' then "" else "\n"
    ensures Pieces(msg[written..]) == [UpToNul(buf)]
  {
    var bytes := |msg| - written;
    var piece: Text.CString := msg[written..] + end;
    assert buf == buf[..bytes] + buf[bytes..bytes + |end| + 1] + buf[bytes + |end| + 1..];
    assert buf == piece + ['\0'] + buf[bytes + |end| + 1..];
    UpToNulOf(piece, buf[bytes + |end| + 1..]);
    assert buf[bytes - 1] == buf[..bytes][bytes - 1];
  }

  /** How much memory there is: for two copies of the message, for one, or for none. */
  datatype Memory = Plenty | Little | Exhausted

  /** Pass a message on, with a newline at its end.  There being no message is no error. */
  method ProcessNotice(msg: Text.CString, memory: Memory) returns (out: seq<string>)
    ensures msg == "" <==> out == []
    ensures msg != "" && memory != Little ==> Content(out) == WithNewline(msg)
    ensures forall p :: p in out ==> EndsInNewline(p) || (memory == Little && p == msg)
    ensures memory == Plenty && msg != "" ==> out == [WithNewline(msg)]
    ensures memory == Exhausted && msg != "" ==> out == if EndsInNewline(msg) then [msg] else Pieces(msg)
    ensures memory == Little && msg != "" ==> out == (if EndsInNewline(msg) then [msg] else [msg, "\n"])
  {
    if |msg| == 0 {
      return [];
    }
    if msg[|msg| - 1] == '\n' {
      return [msg];
    }
    match memory {
      case Plenty => out := [msg + "\n"];
      case Little => out := [msg, "\n"];
      case Exhausted =>
        out := ProcessInPieces(msg);
        PiecesAreTheMessage(msg);
    }
  }
}
