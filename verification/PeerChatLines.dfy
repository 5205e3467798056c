/**
 * What a PeerChat client sends is what the server hears: lines written out, encrypted with an equal key
 * and cut into any reads are delivered one by one, up to the line that closes or that is too long.
 */
module PeerChatLines {
  import opened Wrappers
  import opened Collections
  import opened Bytes
  import opened PeerChatCiphers
  import opened PeerChatFraming

  /** A line as it is sent: a text, some carriage returns, and a newline. */
  datatype Sent = Sent(text: seq<u8>, marks: nat)

  /** The text holds no newline and ends in no return, and the line keeps within the limit. */
  predicate Legal(limit: nat, line: Sent) {
    10 !in line.text && (line.text != [] ==> line.text[|line.text| - 1] != 13) && |line.text| + line.marks <= limit
  }

  function Returns(n: nat): (r: seq<u8>)
    ensures |r| == n
  {
    seq(n, i => 13)
  }

  /** The lines written one behind the other, and whatever follows them. */
  function Written(sent: seq<Sent>, rest: seq<u8>): seq<u8> {
    if sent == [] then rest else sent[0].text + Returns(sent[0].marks) + [10] + Written(sent[1..], rest)
  }

  /** What is to be heard of them: the texts, without the empty ones. */
  function Texts(sent: seq<Sent>): seq<seq<u8>> {
    if sent == [] then [] else (if sent[0].text == [] then [] else [sent[0].text]) + Texts(sent[1..])
  }

  /** None of these lines, heard behind those before, closes the connection or installs a key. */
  ghost predicate Uneventful(rules: Rules, before: seq<seq<u8>>, lines: seq<seq<u8>>) {
    forall n :: 0 < n <= |lines| ==> !rules.closes(before + lines[..n]) && rules.installs(before + lines[..n]).None?
  }

  lemma {:induction false} ReturnsStripped(text: seq<u8>, n: nat)
    requires text != [] ==> text[|text| - 1] != 13
    ensures StripReturns(text + Returns(n)) == text
    decreases n
  {
    var raw := text + Returns(n);
    if n == 0 {
      assert raw == text;
    } else {
      assert raw[..|raw| - 1] == text + Returns(n - 1);
      ReturnsStripped(text, n - 1);
    }
  }

  lemma NewlineBehind(raw: seq<u8>, rest: seq<u8>)
    requires 10 !in raw
    ensures var data := raw + [10] + rest;
            NewlineAt(data) == |raw| && data[..|raw|] == raw && data[|raw| + 1..] == rest
  {
    var data := raw + [10] + rest;
    assert forall k :: 0 <= k < |raw| ==> data[k] == raw[k];
    NewlineUnique(data, |raw|);
  }

  lemma NoNewline(data: seq<u8>)
    requires 10 !in data
    ensures NewlineAt(data) == |data|
  {
  }

  /** A line that is neither the last nor too long is taken off and heard. */
  lemma LineTaken(rules: Rules, line: Sent, rest: seq<u8>, lines: seq<seq<u8>>, cipher: Option<Pack>)
    requires Sound(cipher) && Legal(rules.lineBytes, line)
    requires line.text != [] ==> !rules.closes(lines + [line.text]) && rules.installs(lines + [line.text]).None?
    ensures Parse(rules, line.text + Returns(line.marks) + [10] + rest, lines, cipher)
            == Parse(rules, rest, lines + if line.text == [] then [] else [line.text], cipher)
  {
    hide Parse, NewlineAt, StripReturns;
    var raw := line.text + Returns(line.marks);
    NewlineBehind(raw, rest);
    ReturnsStripped(line.text, line.marks);
    ParseLine(rules, raw + [10] + rest, lines, cipher);
    assert lines + [] == lines;
  }

  /** Written lines are heard in order; the parser then stands where they end. */
  lemma {:induction false} LinesTaken(rules: Rules, sent: seq<Sent>, rest: seq<u8>, lines: seq<seq<u8>>, cipher: Option<Pack>)
    requires Sound(cipher) && (forall i :: 0 <= i < |sent| ==> Legal(rules.lineBytes, sent[i]))
    requires Uneventful(rules, lines, Texts(sent))
    ensures Parse(rules, Written(sent, rest), lines, cipher) == Parse(rules, rest, lines + Texts(sent), cipher)
    decreases |sent|
  {
    hide Parse, Legal;
    if sent == [] {
      assert lines + [] == lines;
    } else {
      var head := if sent[0].text == [] then [] else [sent[0].text];
      var tail := Texts(sent[1..]);
      FirstUneventful(rules, lines, head, tail);
      LineTaken(rules, sent[0], Written(sent[1..], rest), lines, cipher);
      LinesTaken(rules, sent[1..], rest, lines + head, cipher);
      assert lines + head + tail == lines + (head + tail);
    }
  }

  lemma FirstUneventful(rules: Rules, lines: seq<seq<u8>>, head: seq<seq<u8>>, tail: seq<seq<u8>>)
    requires |head| <= 1 && Uneventful(rules, lines, head + tail)
    ensures Uneventful(rules, lines + head, tail)
    ensures head != [] ==> !rules.closes(lines + head) && rules.installs(lines + head).None?
  {
    var all := head + tail;
    if head != [] {
      assert all[..1] == head;
    }
    forall n | 0 < n <= |tail|
      ensures !rules.closes(lines + head + tail[..n]) && rules.installs(lines + head + tail[..n]).None?
    {
      assert all[..|head| + n] == head + tail[..n];
      assert lines + head + tail[..n] == lines + all[..|head| + n];
    }
  }

  /** A reader of the encrypted stream, however it is cut, hears what the plain text says. */
  lemma StreamHeard(rules: Rules, cipher: Option<Pack>, plain: seq<u8>, chunks: seq<seq<u8>>)
    requires Sound(cipher) && Flatten(chunks) == Decode(cipher, plain).1
    requires var heard := Parse(rules, plain, [], None).outcome.lines;
             forall n :: 0 < n <= |heard| ==> rules.installs(heard[..n]).None?
    ensures var r, p := ReadAll(rules, Fresh(cipher), chunks), Parse(rules, plain, [], None);
            r.outcome == p.outcome && (p.outcome.status.Open? ==> r.buffer == p.rest)
  {
    hide Transform, Parse, ReadAll, Switches;
    if cipher.Some? {
      TransformIsInvolution(cipher.value, plain);
    }
    assert Decode(cipher, Flatten(chunks)).1 == plain;
    SwitchesByLines(rules, plain, [], None);
    ReadsParseTheStream(rules, cipher, chunks);
  }

  lemma AllTexts(lines: seq<seq<u8>>)
    ensures [] + lines == lines
  {
  }

  /**
   * Lines sent are lines heard: every text in its order, whatever the reads, and what follows them is
   * kept for the next read, unless it is too long already.
   */
  lemma SentLinesArrive(rules: Rules, cipher: Option<Pack>, sent: seq<Sent>, rest: seq<u8>, chunks: seq<seq<u8>>)
    requires Sound(cipher) && (forall i :: 0 <= i < |sent| ==> Legal(rules.lineBytes, sent[i])) && 10 !in rest
    requires Uneventful(rules, [], Texts(sent)) && Flatten(chunks) == Decode(cipher, Written(sent, rest)).1
    ensures var r := ReadAll(rules, Fresh(cipher), chunks);
            && r.outcome == Outcome(Texts(sent), if rules.lineBytes < |rest| then TooLong else Open)
            && (|rest| <= rules.lineBytes ==> r.buffer == rest)
  {
    hide Parse, ReadAll, Written, Texts, Legal, Decode;
    LinesTaken(rules, sent, rest, [], None);
    AllTexts(Texts(sent));
    NoNewline(rest);
    ParseEnd(rules, rest, Texts(sent), None);
    NoneInstalls(rules, Texts(sent));
    StreamHeard(rules, cipher, Written(sent, rest), chunks);
  }

  lemma NoneInstalls(rules: Rules, lines: seq<seq<u8>>)
    requires Uneventful(rules, [], lines)
    ensures forall n :: 0 < n <= |lines| ==> rules.installs(lines[..n]).None?
  {
    forall n | 0 < n <= |lines|
      ensures rules.installs(lines[..n]).None?
    {
      assert [] + lines[..n] == lines[..n];
    }
  }

  /** A line over the limit ends the connection, whatever follows; the lines before it have been heard. */
  lemma LongLineEnds(rules: Rules, cipher: Option<Pack>, sent: seq<Sent>, raw: seq<u8>, more: seq<u8>, chunks: seq<seq<u8>>)
    requires Sound(cipher) && (forall i :: 0 <= i < |sent| ==> Legal(rules.lineBytes, sent[i]))
    requires 10 !in raw && rules.lineBytes < |raw| && Uneventful(rules, [], Texts(sent))
    requires Flatten(chunks) == Decode(cipher, Written(sent, raw + [10] + more)).1
    ensures ReadAll(rules, Fresh(cipher), chunks).outcome == Outcome(Texts(sent), TooLong)
  {
    hide Parse, ReadAll, Written, Texts, Legal, Decode;
    var rest := raw + [10] + more;
    LinesTaken(rules, sent, rest, [], None);
    AllTexts(Texts(sent));
    NewlineBehind(raw, more);
    ParseLine(rules, rest, Texts(sent), None);
    NoneInstalls(rules, Texts(sent));
    StreamHeard(rules, cipher, Written(sent, rest), chunks);
  }

  /** A line that closes the connection is the last one heard, whatever follows. */
  lemma ClosingLineEnds(rules: Rules, cipher: Option<Pack>, sent: seq<Sent>, last: Sent, more: seq<u8>, chunks: seq<seq<u8>>)
    requires Sound(cipher) && (forall i :: 0 <= i < |sent| ==> Legal(rules.lineBytes, sent[i]))
    requires Legal(rules.lineBytes, last) && last.text != [] && Uneventful(rules, [], Texts(sent))
    requires rules.closes(Texts(sent) + [last.text]) && rules.installs(Texts(sent) + [last.text]).None?
    requires Flatten(chunks) == Decode(cipher, Written(sent, last.text + Returns(last.marks) + [10] + more)).1
    ensures ReadAll(rules, Fresh(cipher), chunks).outcome == Outcome(Texts(sent) + [last.text], Closed)
  {
    hide Parse, ReadAll, Written, Texts, Decode, StripReturns;
    var raw := last.text + Returns(last.marks);
    var rest, heard := raw + [10] + more, Texts(sent) + [last.text];
    LinesTaken(rules, sent, rest, [], None);
    AllTexts(Texts(sent));
    NewlineBehind(raw, more);
    ReturnsStripped(last.text, last.marks);
    ParseLine(rules, rest, Texts(sent), None);
    NoneInstalls(rules, Texts(sent));
    forall n | 0 < n <= |heard|
      ensures rules.installs(heard[..n]).None?
    {
      if n < |heard| {
        assert heard[..n] == Texts(sent)[..n];
      } else {
        assert heard[..n] == heard;
      }
    }
    StreamHeard(rules, cipher, Written(sent, rest), chunks);
  }
}
