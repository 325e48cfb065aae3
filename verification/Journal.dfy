/**
 * The durable journal of packages/eval-orchestrator/src/journal.ts: a hash-chained log of JSON lines
 * with optimistic writer fencing and recovery of a torn tail.
 *
 * JSON text and SHA-256 are a `Codec` parameter with the laws of `Lawful`; the file is its text, one
 * character per byte.  The body of `append` is atomic (it runs under the writer fence).
 */
module Journal {
  import opened Common

  type Hash = string

  datatype Body = Body(sequence: int, previousHash: Option<Hash>, payload: int)

  datatype Transaction = Transaction(body: Body, hash: Hash)

  datatype Codec = Codec(
    encode: Transaction -> string,
    parse: string -> Option<Transaction>,
    digest: Body -> Hash)

  /**
   * JSON.stringify writes one line; neither a cut-off record parses, nor one with the beginning of another
   * glued on.
   */
  ghost predicate Lawful(codec: Codec) {
    && (forall t :: codec.parse(codec.encode(t)) == Some(t))
    && (forall t :: codec.encode(t) != "" && '\n' !in codec.encode(t))
    && (forall t, k :: 0 <= k < |codec.encode(t)| ==> codec.parse(codec.encode(t)[..k]) == None)
    && (forall t, u, k :: 0 < k <= |codec.encode(u)| ==> codec.parse(codec.encode(t) + codec.encode(u)[..k]) == None)
  }

  // ---------------------------------------------------------------------------------
  // Lines.

  /** `text.split('\n')`. */
  function Lines(text: string): (r: seq<string>)
    ensures r != []
  {
    if text == "" then [""]
    else if text[0] == '\n' then [""] + Lines(text[1..])
    else [[text[0]] + Lines(text[1..])[0]] + Lines(text[1..])[1..]
  }

  lemma {:induction false} LinesPlain(line: string)
    requires '\n' !in line
    ensures Lines(line) == [line]
  {
    if line != "" {
      assert line[0] in line && line == [line[0]] + line[1..];
      LinesPlain(line[1..]);
    }
  }

  lemma {:induction false} LinesCons(line: string, rest: string)
    requires '\n' !in line
    ensures Lines(line + "\n" + rest) == [line] + Lines(rest)
  {
    var text := line + "\n" + rest;
    if line == "" {
      assert text == "\n" + rest && text[1..] == rest;
    } else {
      assert text[0] == line[0] && text[1..] == line[1..] + "\n" + rest;
      LinesCons(line[1..], rest);
      assert [line[0]] + line[1..] == line;
    }
  }

  /** The bytes of complete lines, newlines included. */
  function Bytes(lines: seq<string>): nat {
    if lines == [] then 0 else Bytes(lines[..|lines| - 1]) + |lines[|lines| - 1]| + 1
  }

  /** Splitting loses nothing: all lines but the last carry one newline each. */
  lemma {:induction false} LinesBytes(text: string)
    ensures Bytes(Lines(text)) == |text| + 1
    ensures |Lines(text)[|Lines(text)| - 1]| <= |text|
  {
    if text != "" {
      var rest := Lines(text[1..]);
      LinesBytes(text[1..]);
      if text[0] == '\n' {
        BytesCons("", rest);
      } else {
        BytesCons(rest[0], rest[1..]);
        BytesCons([text[0]] + rest[0], rest[1..]);
        assert rest == [rest[0]] + rest[1..];
      }
    }
  }

  lemma {:induction false} BytesCons(line: string, lines: seq<string>)
    ensures Bytes([line] + lines) == |line| + 1 + Bytes(lines)
  {
    var all := [line] + lines;
    if lines == [] {
      assert all[..0] == [];
    } else {
      assert all[..|all| - 1] == [line] + lines[..|lines| - 1];
      BytesCons(line, lines[..|lines| - 1]);
    }
  }

  // ---------------------------------------------------------------------------------
  // What a file means.

  /** The transactions of complete lines, blank lines skipped; `None` if some line does not parse. */
  function ParseLines(codec: Codec, lines: seq<string>): Option<seq<Transaction>> {
    if lines == [] then Some([]) else
      var before := ParseLines(codec, lines[..|lines| - 1]);
      var line := lines[|lines| - 1];
      if before.None? || line == "" then before
      else if codec.parse(line).None? then None
      else Some(before.value + [codec.parse(line).value])
  }

  /** Blank lines do not matter, wherever they stand. */
  lemma {:induction false} BlankIgnored(codec: Codec, before: seq<string>, after: seq<string>)
    ensures ParseLines(codec, before + [""] + after) == ParseLines(codec, before + after)
  {
    if after == [] {
      assert (before + [""] + after)[..|before|] == before && before + after == before;
    } else {
      var n := |after| - 1;
      assert (before + [""] + after)[..|before| + 1 + n] == before + [""] + after[..n];
      assert (before + after)[..|before| + n] == before + after[..n];
      BlankIgnored(codec, before, after[..n]);
    }
  }

  predicate Verifies(codec: Codec, log: seq<Transaction>) {
    forall i :: 0 <= i < |log| ==> Link(codec, log, i)
  }

  /** Record `i` sits at its own sequence number, names its predecessor's hash and carries its own. */
  predicate Link(codec: Codec, log: seq<Transaction>, i: int)
    requires 0 <= i < |log|
  {
    && log[i].body.sequence == i
    && log[i].body.previousHash == (if i == 0 then None else Some(log[i - 1].hash))
    && SelfHashed(codec, log[i])
  }

  /** What is wrong with record `i`, in the order in which it is checked. */
  function Fault(log: seq<Transaction>, i: nat): string
    requires i < |log|
  {
    if log[i].body.sequence != i then "journal transaction sequence gap"
    else if log[i].body.previousHash != (if i == 0 then None else Some(log[i - 1].hash)) then
      "journal hash chain mismatch"
    else "journal transaction hash mismatch"
  }

  /** The message names the fault of the first record that does not link. */
  ghost predicate FirstFault(codec: Codec, log: seq<Transaction>, message: string) {
    exists i: nat :: i < |log| && !Link(codec, log, i) && message == Fault(log, i)
                  && forall k :: 0 <= k < i ==> Link(codec, log, k)
  }

  predicate SelfHashed(codec: Codec, t: Transaction) {
    codec.digest(t.body) == t.hash
  }

  /** The file does not end in a parsable or empty line: its tail is torn. */
  predicate Torn(codec: Codec, text: string) {
    var lines := Lines(text);
    lines[|lines| - 1] != "" && codec.parse(lines[|lines| - 1]).None?
  }

  /** What `readAll` leaves on disk: the torn tail is cut off, unless an earlier line is invalid. */
  function Repaired(codec: Codec, text: string): string {
    var lines := Lines(text);
    LinesBytes(text);
    if Torn(codec, text) && ParseLines(codec, lines[..|lines| - 1]).Some?
    then text[..|text| - |lines[|lines| - 1]|] else text
  }

  function Parsed(codec: Codec, text: string): Option<seq<Transaction>> {
    var lines := Lines(text);
    if Torn(codec, text) then ParseLines(codec, lines[..|lines| - 1]) else ParseLines(codec, lines)
  }

  /** What `readAll` returns. */
  function Read(codec: Codec, text: string): Result<seq<Transaction>> {
    var log := Parsed(codec, text);
    if log.None? then Err("invalid durable journal record")
    else if !Verifies(codec, log.value) then Err("journal verification failed")
    else Ok(log.value)
  }

  function HeadHash(log: seq<Transaction>): Option<Hash> {
    if log == [] then None else Some(log[|log| - 1].hash)
  }

  /** The optimistic fence: the transaction was prepared for exactly this log. */
  predicate Fits(log: seq<Transaction>, t: Transaction) {
    t.body.sequence == |log| && t.body.previousHash == HeadHash(log)
  }

  predicate Accepts(codec: Codec, text: string, t: Transaction) {
    Read(codec, text).Ok? && Fits(Read(codec, text).value, t)
  }

  /** The file after `append`. */
  function Appended(codec: Codec, text: string, t: Transaction): string {
    if Accepts(codec, text, t) then Repaired(codec, text) + codec.encode(t) + "\n" else Repaired(codec, text)
  }

  // ---------------------------------------------------------------------------------
  // The object.

  class DurableJournal {
    const codec: Codec
    var file: string

    constructor (codec: Codec)
      ensures this.codec == codec && file == ""
    {
      this.codec := codec;
      file := "";
    }

    method ReadAll() returns (r: Result<seq<Transaction>>)
      modifies this`file
      ensures file == Repaired(codec, old(file))
      ensures r.Ok? <==> Read(codec, old(file)).Ok?
      ensures r.Ok? ==> r == Read(codec, old(file))
      ensures r.Err? ==>
                if Parsed(codec, old(file)).None? then r.message == "invalid durable journal record"
                else FirstFault(codec, Parsed(codec, old(file)).value, r.message)
    {
      hide Verifies, FirstFault;
      var text := file;
      var lines := Lines(text);
      LinesBytes(text);
      var transactions: seq<Transaction> := [];
      var validBytes := 0;
      var index := 0;
      while index < |lines|
        invariant 0 <= index <= |lines|
        invariant file == text
        invariant ParseLines(codec, lines[..index]) == Some(transactions)
        invariant index < |lines| ==> validBytes == Bytes(lines[..index])
        invariant index == |lines| ==> !Torn(codec, text)
      {
        var line := lines[index];
        assert lines[..index + 1][..index] == lines[..index];
        BytesPrefix(lines, index + 1);
        if line == "" {
          if index < |lines| - 1 { validBytes := validBytes + 1; }
        } else {
          var parsed := codec.parse(line);
          if parsed.None? {
            ParseFails(codec, lines, index);
            if index == |lines| - 1 {
              file := text[..validBytes];
              assert lines[..index] == lines[..|lines| - 1];
              break;
            }
            ParseFailsBefore(codec, lines, index);
            return Err("invalid durable journal record");
          }
          transactions := transactions + [parsed.value];
          validBytes := validBytes + |line| + if index < |lines| - 1 then 1 else 0;
        }
        index := index + 1;
      }
      assert lines[..|lines|] == lines;
      assert Parsed(codec, text) == Some(transactions);
      assert file == Repaired(codec, text);
      r := CheckChain(transactions);
    }

    /** The verification loop of `readAll`. */
    method CheckChain(transactions: seq<Transaction>) returns (r: Result<seq<Transaction>>)
      ensures r.Ok? <==> Verifies(codec, transactions)
      ensures r.Ok? ==> r.value == transactions
      ensures r.Err? ==> FirstFault(codec, transactions, r.message)
    {
      for i := 0 to |transactions|
        invariant forall k :: 0 <= k < i ==> Link(codec, transactions, k)
      {
        var t := transactions[i];
        if t.body.sequence != i {
          assert !Link(codec, transactions, i) && Fault(transactions, i) == "journal transaction sequence gap";
          return Err("journal transaction sequence gap");
        }
        if t.body.previousHash != (if i == 0 then None else Some(transactions[i - 1].hash)) {
          assert !Link(codec, transactions, i) && Fault(transactions, i) == "journal hash chain mismatch";
          return Err("journal hash chain mismatch");
        }
        if codec.digest(t.body) != t.hash {
          assert !Link(codec, transactions, i) && Fault(transactions, i) == "journal transaction hash mismatch";
          return Err("journal transaction hash mismatch");
        }
      }
      return Ok(transactions);
    }

    method Append(t: Transaction) returns (r: Result<()>)
      modifies this`file
      ensures file == Appended(codec, old(file), t)
      ensures r.Ok? <==> Accepts(codec, old(file), t)
    {
      var existing := ReadAll();
      if existing.Err? { return Err(existing.message); }
      if !Fits(existing.value, t) { return Err("journal writer fenced by a newer transaction"); }
      file := file + codec.encode(t) + "\n";
      return Ok(());
    }
  }

  lemma {:induction false} BytesPrefix(lines: seq<string>, n: nat)
    requires 0 < n <= |lines|
    ensures Bytes(lines[..n]) == Bytes(lines[..n - 1]) + |lines[n - 1]| + 1
  {
    assert lines[..n][..n - 1] == lines[..n - 1];
  }

  /** A line that does not parse spoils every longer prefix. */
  lemma {:induction false} ParseFails(codec: Codec, lines: seq<string>, index: nat)
    requires index < |lines| && lines[index] != "" && codec.parse(lines[index]).None?
    ensures ParseLines(codec, lines).None?
    decreases |lines|
  {
    if index < |lines| - 1 { ParseFails(codec, lines[..|lines| - 1], index); }
  }

  lemma {:induction false} ParseFailsBefore(codec: Codec, lines: seq<string>, index: nat)
    requires index < |lines| - 1 && lines[index] != "" && codec.parse(lines[index]).None?
    ensures ParseLines(codec, lines).None? && ParseLines(codec, lines[..|lines| - 1]).None?
  {
    ParseFails(codec, lines, index);
    ParseFails(codec, lines[..|lines| - 1], index);
  }

  // ---------------------------------------------------------------------------------
  // Files written by this journal, whole or torn.

  /** The file of a log: one encoded record per line. */
  function Render(codec: Codec, log: seq<Transaction>): string {
    if log == [] then "" else Render(codec, log[..|log| - 1]) + codec.encode(log[|log| - 1]) + "\n"
  }

  function Encoded(codec: Codec, log: seq<Transaction>): seq<string> {
    if log == [] then [] else Encoded(codec, log[..|log| - 1]) + [codec.encode(log[|log| - 1])]
  }

  lemma {:induction false} LinesRender(codec: Codec, log: seq<Transaction>, rest: string)
    requires Lawful(codec)
    ensures Lines(Render(codec, log) + rest) == Encoded(codec, log) + Lines(rest)
  {
    if log == [] {
      assert Render(codec, log) + rest == rest;
    } else {
      var n := |log| - 1;
      var line := codec.encode(log[n]);
      assert Render(codec, log) + rest == Render(codec, log[..n]) + (line + "\n" + rest);
      LinesRender(codec, log[..n], line + "\n" + rest);
      LinesCons(line, rest);
    }
  }

  lemma {:induction false} ParseEncoded(codec: Codec, log: seq<Transaction>)
    requires Lawful(codec)
    ensures ParseLines(codec, Encoded(codec, log)) == Some(log)
  {
    if log != [] {
      var n := |log| - 1;
      var lines, line := Encoded(codec, log), codec.encode(log[n]);
      ParseEncoded(codec, log[..n]);
      assert lines[..|lines| - 1] == Encoded(codec, log[..n]) && lines[|lines| - 1] == line;
      assert codec.parse(line) == Some(log[n]) && line != "";
      assert log == log[..n] + [log[n]];
    }
  }

  /** A log followed by one newline-free tail: what is read and what is repaired. */
  lemma {:induction false} TailReads(codec: Codec, log: seq<Transaction>, tail: string)
    requires Lawful(codec) && '\n' !in tail
    ensures Torn(codec, Render(codec, log) + tail) <==> tail != "" && codec.parse(tail).None?
    ensures Parsed(codec, Render(codec, log) + tail)
         == Some(if tail != "" && codec.parse(tail).Some? then log + [codec.parse(tail).value] else log)
    ensures Repaired(codec, Render(codec, log) + tail)
         == if tail != "" && codec.parse(tail).None? then Render(codec, log) else Render(codec, log) + tail
  {
    var text := Render(codec, log) + tail;
    LinesRender(codec, log, tail);
    LinesPlain(tail);
    ParseEncoded(codec, log);
    var lines := Lines(text);
    assert lines == Encoded(codec, log) + [tail];
    assert lines[..|lines| - 1] == Encoded(codec, log);
    assert text[..|text| - |tail|] == Render(codec, log);
  }

  /** Round trip: a verified log is read back exactly, and the file is left alone. */
  lemma {:induction false} RenderReads(codec: Codec, log: seq<Transaction>)
    requires Lawful(codec)
    ensures Parsed(codec, Render(codec, log)) == Some(log) && Repaired(codec, Render(codec, log)) == Render(codec, log)
    ensures Verifies(codec, log) ==> Read(codec, Render(codec, log)) == Ok(log)
  {
    TailReads(codec, log, "");
    assert Render(codec, log) + "" == Render(codec, log);
  }

  /** Torn-tail recovery: a crash that leaves a proper prefix of a record loses exactly that record. */
  lemma {:induction false} TornRecovers(codec: Codec, log: seq<Transaction>, t: Transaction, k: nat)
    requires Lawful(codec) && Verifies(codec, log) && k < |codec.encode(t)|
    ensures
      var crashed := Render(codec, log) + codec.encode(t)[..k];
      Read(codec, crashed) == Ok(log) && Repaired(codec, crashed) == Render(codec, log)
  {
    var tail := codec.encode(t)[..k];
    forall c | c in tail ensures c in codec.encode(t) {
    }
    TailReads(codec, log, tail);
    assert k == 0 ==> tail == "" && Render(codec, log) + tail == Render(codec, log);
  }

  // ---------------------------------------------------------------------------------
  // Appending.

  /** One atomic append, seen on the log. */
  function Commit(log: seq<Transaction>, t: Transaction): seq<Transaction> {
    if Fits(log, t) then log + [t] else log
  }

  lemma {:induction false} CommitVerifies(codec: Codec, log: seq<Transaction>, t: Transaction)
    requires Verifies(codec, log)
    ensures Verifies(codec, Commit(log, t)) <==> !Fits(log, t) || SelfHashed(codec, t)
  {
    if !Fits(log, t) { return; }
    hide SelfHashed;
    var after := log + [t];
    LinksSame(codec, log, after);
    assert Link(codec, after, |log|) <==> SelfHashed(codec, t);
  }

  lemma {:induction false} LinksSame(codec: Codec, log: seq<Transaction>, after: seq<Transaction>)
    requires log <= after
    ensures forall i :: 0 <= i < |log| ==> (Link(codec, log, i) <==> Link(codec, after, i))
  {
    hide SelfHashed;
  }

  lemma {:induction false} RenderSnoc(codec: Codec, log: seq<Transaction>, t: Transaction)
    ensures Render(codec, log + [t]) == Render(codec, log) + codec.encode(t) + "\n"
  {
    assert (log + [t])[..|log|] == log;
  }

  /** On the file of a verified log, `append` does to the text what `Commit` does to the log. */
  lemma {:induction false} AppendRefines(codec: Codec, log: seq<Transaction>, t: Transaction)
    requires Lawful(codec) && Verifies(codec, log)
    ensures Accepts(codec, Render(codec, log), t) <==> Fits(log, t)
    ensures Appended(codec, Render(codec, log), t) == Render(codec, Commit(log, t))
  {
    RenderReads(codec, log);
    RenderSnoc(codec, log, t);
  }

  /** `append` does not check the transaction's own hash: the journal stays readable exactly if it is right. */
  lemma {:induction false} AppendReadableIff(codec: Codec, log: seq<Transaction>, t: Transaction)
    requires Lawful(codec) && Verifies(codec, log)
    ensures Read(codec, Appended(codec, Render(codec, log), t)).Ok? <==> !Fits(log, t) || SelfHashed(codec, t)
  {
    AppendRefines(codec, log, t);
    CommitVerifies(codec, log, t);
    RenderReads(codec, Commit(log, t));
  }

  /** After a torn tail, the next append commits on top of the recovered log. */
  lemma {:induction false} AppendAfterTorn(
    codec: Codec, log: seq<Transaction>, t: Transaction, k: nat, next: Transaction)
    requires Lawful(codec) && Verifies(codec, log) && k < |codec.encode(t)|
    requires Fits(log, next) && SelfHashed(codec, next)
    ensures
      var after := Appended(codec, Render(codec, log) + codec.encode(t)[..k], next);
      after == Render(codec, log + [next]) && Read(codec, after) == Ok(log + [next])
  {
    TornRecovers(codec, log, t, k);
    RenderSnoc(codec, log, next);
    CommitVerifies(codec, log, next);
    RenderReads(codec, log + [next]);
  }

  /** The bytes a crash can leave of an append, and the log a later reader takes them for. */
  function Crashed(codec: Codec, log: seq<Transaction>, t: Transaction, k: nat): string
    requires k <= |codec.encode(t)| + 1
  {
    Render(codec, log) + (codec.encode(t) + "\n")[..k]
  }

  /**
   * Crash safety of append, exactly: whatever prefix of the record and its newline reached the disk,
   * the next writer's append leaves a readable journal if and only if the prefix is not the whole
   * record without its newline.  In that case the record is read as committed but the file is not
   * repaired, and the next record is glued to it.
   */
  lemma {:induction false} CrashThenAppendIff(
    codec: Codec, log: seq<Transaction>, t: Transaction, k: nat, next: Transaction)
    requires Lawful(codec) && Verifies(codec, log) && Fits(log, t) && SelfHashed(codec, t)
    requires k <= |codec.encode(t)| + 1
    requires Read(codec, Crashed(codec, log, t, k)).Ok?
    requires Fits(Read(codec, Crashed(codec, log, t, k)).value, next) && SelfHashed(codec, next)
    ensures Read(codec, Appended(codec, Crashed(codec, log, t, k), next)).Ok? <==> k != |codec.encode(t)|
  {
    var enc := codec.encode(t);
    if k < |enc| {
      assert (enc + "\n")[..k] == enc[..k];
      TornRecovers(codec, log, t, k);
      AppendAfterTorn(codec, log, t, k, next);
    } else if k == |enc| {
      assert (enc + "\n")[..k] == enc;
      GluedReads(codec, log, t);
      GluedUnreadable(codec, log, t, next);
    } else {
      assert (enc + "\n")[..k] == enc + "\n";
      RenderSnoc(codec, log, t);
      assert Render(codec, log) + (enc + "\n") == Render(codec, log + [t]);
      CommitVerifies(codec, log, t);
      RenderReads(codec, log + [t]);
      AppendReadableIff(codec, log + [t], next);
    }
  }

  lemma {:induction false} GluedReads(codec: Codec, log: seq<Transaction>, t: Transaction)
    requires Lawful(codec) && Verifies(codec, log) && Fits(log, t) && SelfHashed(codec, t)
    ensures Read(codec, Render(codec, log) + codec.encode(t)) == Ok(log + [t])
    ensures Repaired(codec, Render(codec, log) + codec.encode(t)) == Render(codec, log) + codec.encode(t)
  {
    TailReads(codec, log, codec.encode(t));
    CommitVerifies(codec, log, t);
  }

  /** The record without its newline: read as committed, left unrepaired, and ruined by the next append. */
  lemma {:induction false} GluedUnreadable(codec: Codec, log: seq<Transaction>, t: Transaction, next: Transaction)
    requires Lawful(codec) && Verifies(codec, log) && Fits(log, t) && SelfHashed(codec, t)
    requires Fits(log + [t], next)
    ensures
      var crashed := Render(codec, log) + codec.encode(t);
      && Read(codec, crashed) == Ok(log + [t])
      && Appended(codec, crashed, next) == crashed + codec.encode(next) + "\n"
      && Read(codec, Appended(codec, crashed, next)).Err?
      && Repaired(codec, Appended(codec, crashed, next)) == Appended(codec, crashed, next)
  {
    var enc, enc' := codec.encode(t), codec.encode(next);
    assert enc'[..|enc'|] == enc';
    GluedReads(codec, log, t);
    var text := Render(codec, log) + enc + enc' + "\n";
    assert text == Render(codec, log) + ((enc + enc') + "\n" + "");
    LinesRender(codec, log, (enc + enc') + "\n" + "");
    LinesCons(enc + enc', "");
    var lines := Encoded(codec, log) + ([enc + enc'] + [""]);
    assert Lines(text) == lines;
    ParseFails(codec, lines, |Encoded(codec, log)|);
  }

  // ---------------------------------------------------------------------------------
  // Many writers.

  /** The log after a run of append attempts, in the order they entered the fence. */
  function CommitAll(log: seq<Transaction>, attempts: seq<Transaction>): seq<Transaction> {
    if attempts == [] then log
    else Commit(CommitAll(log, attempts[..|attempts| - 1]), attempts[|attempts| - 1])
  }

  /** The file after the same run of appends. */
  function AppendAll(codec: Codec, text: string, attempts: seq<Transaction>): string {
    if attempts == [] then text
    else Appended(codec, AppendAll(codec, text, attempts[..|attempts| - 1]), attempts[|attempts| - 1])
  }

  /** Over any run of self-hashed attempts the log verifies, only grows, and is what the file holds. */
  lemma {:induction false} RunLinear(codec: Codec, log: seq<Transaction>, attempts: seq<Transaction>)
    requires Lawful(codec) && Verifies(codec, log)
    requires forall i :: 0 <= i < |attempts| ==> SelfHashed(codec, attempts[i])
    ensures Verifies(codec, CommitAll(log, attempts)) && log <= CommitAll(log, attempts)
    ensures AppendAll(codec, Render(codec, log), attempts) == Render(codec, CommitAll(log, attempts))
    ensures Read(codec, AppendAll(codec, Render(codec, log), attempts)) == Ok(CommitAll(log, attempts))
  {
    hide Verifies, Lawful, Read, Render, Appended, SelfHashed, Fits;
    if attempts != [] {
      var n := |attempts| - 1;
      RunLinear(codec, log, attempts[..n]);
      var before := CommitAll(log, attempts[..n]);
      CommitVerifies(codec, before, attempts[n]);
      AppendRefines(codec, before, attempts[n]);
    }
    RenderReads(codec, CommitAll(log, attempts));
  }

  /** An append by some writer, one that a crash cuts off after `k` characters, or a read. */
  datatype Event = Attempt(t: Transaction) | CutOff(t: Transaction, k: nat) | Reading

  /** The cut loses the record: not even its last character reached the disk. */
  predicate Loses(codec: Codec, e: Event) {
    e.CutOff? && e.k < |codec.encode(e.t)|
  }

  function FileAfter(codec: Codec, text: string, e: Event): string {
    match e
    case Attempt(t) => Appended(codec, text, t)
    case CutOff(t, k) =>
      var line := codec.encode(t) + "\n";
      if Accepts(codec, text, t) then Repaired(codec, text) + (if k <= |line| then line[..k] else line)
      else Repaired(codec, text)
    case Reading => Repaired(codec, text)
  }

  function FileAll(codec: Codec, text: string, events: seq<Event>): string {
    if events == [] then text
    else FileAfter(codec, FileAll(codec, text, events[..|events| - 1]), events[|events| - 1])
  }

  /** The log the events commit: a lost record leaves no trace. */
  function LogAll(codec: Codec, log: seq<Transaction>, events: seq<Event>): seq<Transaction> {
    if events == [] then log
    else
      var n := |events| - 1;
      var before := LogAll(codec, log, events[..n]);
      if events[n].Reading? || Loses(codec, events[n]) then before else Commit(before, events[n].t)
  }

  /** How much of the line of a record reaches the disk. */
  function Written(codec: Codec, e: Event): nat
    requires !e.Reading?
  {
    var whole := |codec.encode(e.t)| + 1;
    if e.CutOff? && e.k < whole then e.k else whole
  }

  lemma {:induction false} FileWrites(codec: Codec, text: string, e: Event)
    requires !e.Reading?
    ensures FileAfter(codec, text, e) ==
              if Accepts(codec, text, e.t) then Repaired(codec, text) + (codec.encode(e.t) + "\n")[..Written(codec, e)]
              else Repaired(codec, text)
  {
    hide Accepts, Repaired;
    var line := codec.encode(e.t) + "\n";
    assert line[..|line|] == line;
    assert Repaired(codec, text) + codec.encode(e.t) + "\n" == Repaired(codec, text) + line;
  }

  /**
   * What a file holds: a log, perhaps with a torn tail that is no record; a log and one more record without its
   * newline, read as committed; or something unreadable.
   */
  datatype Disk = Clean(log: seq<Transaction>) | Glued(log: seq<Transaction>, t: Transaction) | Spoiled

  /** What `readAll` returns of it. */
  function LogOf(d: Disk): Option<seq<Transaction>> {
    match d
    case Clean(log) => Some(log)
    case Glued(log, t) => Some(log + [t])
    case Spoiled => None
  }

  function DiskAfter(codec: Codec, d: Disk, e: Event): Disk {
    if d.Spoiled? || e.Reading? || !Fits(LogOf(d).value, e.t) then d
    else
      var w, size := Written(codec, e), |codec.encode(e.t)|;
      match d
      case Clean(log) => if w < size then d else if w == size then Glued(log, e.t) else Clean(log + [e.t])
      case Glued(log, t) => if w == 0 then d else if w <= size then Clean(log) else Spoiled
  }

  function DiskAll(codec: Codec, d: Disk, events: seq<Event>): Disk {
    if events == [] then d
    else DiskAfter(codec, DiskAll(codec, d, events[..|events| - 1]), events[|events| - 1])
  }

  /** A tail that `readAll` cuts off. */
  predicate Loose(codec: Codec, tail: string) {
    '\n' !in tail && (tail == "" || codec.parse(tail).None?)
  }

  ghost predicate Tailed(codec: Codec, text: string, log: seq<Transaction>) {
    exists tail :: Loose(codec, tail) && text == Render(codec, log) + tail
  }

  ghost predicate Means(codec: Codec, text: string, d: Disk) {
    match d
    case Clean(log) => Verifies(codec, log) && Tailed(codec, text, log)
    case Glued(log, t) =>
      Verifies(codec, log) && Fits(log, t) && SelfHashed(codec, t) && text == Render(codec, log) + codec.encode(t)
    case Spoiled => Read(codec, text).Err? && Repaired(codec, text) == text
  }

  lemma {:induction false} TailedReads(codec: Codec, text: string, log: seq<Transaction>)
    requires Lawful(codec) && Verifies(codec, log) && Tailed(codec, text, log)
    ensures Read(codec, text) == Ok(log) && Repaired(codec, text) == Render(codec, log)
  {
    var tail :| Loose(codec, tail) && text == Render(codec, log) + tail;
    TailReads(codec, log, tail);
    hide Render, Lawful, Verifies;
  }

  /** Reading a file shows what it holds. */
  lemma {:induction false} MeansReads(codec: Codec, text: string, d: Disk)
    requires Lawful(codec) && Means(codec, text, d)
    ensures if d.Spoiled? then Read(codec, text).Err? else Read(codec, text) == Ok(LogOf(d).value)
    ensures Repaired(codec, text) == if d.Clean? then Render(codec, d.log) else text
  {
    hide Read, Repaired, Lawful, Verifies, Tailed, Render, Fits;
    match d
    case Clean(log) => TailedReads(codec, text, log);
    case Glued(log, t) => GluedReads(codec, log, t);
    case Spoiled =>
  }

  lemma {:induction false} TailedBy(codec: Codec, log: seq<Transaction>, tail: string)
    requires Loose(codec, tail)
    ensures Tailed(codec, Render(codec, log) + tail, log)
  {
  }

  lemma {:induction false} RenderTailed(codec: Codec, log: seq<Transaction>)
    ensures Tailed(codec, Render(codec, log), log)
  {
    assert Render(codec, log) + "" == Render(codec, log);
    TailedBy(codec, log, "");
  }

  /** A write on a clean file: lost, glued or committed. */
  lemma {:induction false} CleanStep(codec: Codec, log: seq<Transaction>, u: Transaction, w: nat)
    requires Lawful(codec) && Verifies(codec, log) && Fits(log, u) && SelfHashed(codec, u)
    requires w <= |codec.encode(u)| + 1
    ensures
      var size := |codec.encode(u)|;
      Means(codec, Render(codec, log) + (codec.encode(u) + "\n")[..w],
            if w < size then Clean(log) else if w == size then Glued(log, u) else Clean(log + [u]))
  {
    var enc := codec.encode(u);
    var line := enc + "\n";
    if w < |enc| {
      assert line[..w] == enc[..w];
      TailedBy(codec, log, enc[..w]);
    } else if w == |enc| {
      assert line[..w] == enc;
    } else {
      assert line[..w] == line && Render(codec, log) + line == Render(codec, log) + enc + "\n";
      RenderSnoc(codec, log, u);
      RenderTailed(codec, log + [u]);
      CommitVerifies(codec, log, u);
    }
  }

  /** A write on a glued file: nothing yet, the glued record lost, or the journal spoiled. */
  lemma {:induction false} GluedStep(codec: Codec, log: seq<Transaction>, t: Transaction, u: Transaction, w: nat)
    requires Lawful(codec) && Means(codec, Render(codec, log) + codec.encode(t), Glued(log, t))
    requires Fits(log + [t], u) && w <= |codec.encode(u)| + 1
    ensures
      var size := |codec.encode(u)|;
      Means(codec, Render(codec, log) + codec.encode(t) + (codec.encode(u) + "\n")[..w],
            if w == 0 then Glued(log, t) else if w <= size then Clean(log) else Spoiled)
  {
    var text, enc := Render(codec, log) + codec.encode(t), codec.encode(u);
    var line := enc + "\n";
    if w == 0 {
      assert text + line[..0] == text;
    } else if w <= |enc| {
      assert line[..w] == enc[..w];
      var tail := codec.encode(t) + enc[..w];
      assert text + line[..w] == Render(codec, log) + tail;
      TailedBy(codec, log, tail);
    } else {
      GluedUnreadable(codec, log, t, u);
      assert line[..w] == line && text + line == text + enc + "\n";
    }
  }

  /** Each event changes what the file holds as `DiskAfter` says. */
  lemma {:induction false} MeansStep(codec: Codec, text: string, d: Disk, e: Event)
    requires Lawful(codec) && Means(codec, text, d) && (!e.Reading? ==> SelfHashed(codec, e.t))
    ensures Means(codec, FileAfter(codec, text, e), DiskAfter(codec, d, e))
  {
    hide Read, Repaired, Lawful, Verifies, Tailed, Render, Fits, SelfHashed;
    MeansReads(codec, text, d);
    if d.Clean? { RenderTailed(codec, d.log); }
    if e.Reading? { return; }
    hide FileAfter;
    FileWrites(codec, text, e);
    AcceptsIs(codec, text, d, e.t);
    if !d.Spoiled? && Fits(LogOf(d).value, e.t) {
      if d.Clean? {
        CleanStep(codec, d.log, e.t, Written(codec, e));
      } else {
        GluedStep(codec, d.log, d.t, e.t, Written(codec, e));
      }
    }
  }

  lemma {:induction false} AcceptsIs(codec: Codec, text: string, d: Disk, t: Transaction)
    requires if d.Spoiled? then Read(codec, text).Err? else Read(codec, text) == Ok(LogOf(d).value)
    ensures Accepts(codec, text, t) <==> !d.Spoiled? && Fits(LogOf(d).value, t)
  {
    hide Read, Fits;
  }

  predicate AllHashed(codec: Codec, events: seq<Event>) {
    forall i :: 0 <= i < |events| && !events[i].Reading? ==> SelfHashed(codec, events[i].t)
  }

  /**
   * Over any run of appends, reads and crashes by many writers, wherever the crashes fall, the file holds and
   * `readAll` returns what `DiskAll` says.
   */
  lemma {:induction false} RunDisk(codec: Codec, text: string, d: Disk, events: seq<Event>)
    requires Lawful(codec) && Means(codec, text, d) && AllHashed(codec, events)
    ensures Means(codec, FileAll(codec, text, events), DiskAll(codec, d, events))
    ensures
      var after := DiskAll(codec, d, events);
      if after.Spoiled? then Read(codec, FileAll(codec, text, events)).Err?
      else Read(codec, FileAll(codec, text, events)) == Ok(LogOf(after).value)
  {
    if events != [] {
      hide Means, FileAfter, DiskAfter, Lawful, Read, SelfHashed;
      var n := |events| - 1;
      RunDisk(codec, text, d, events[..n]);
      MeansStep(codec, FileAll(codec, text, events[..n]), DiskAll(codec, d, events[..n]), events[n]);
    }
    MeansReads(codec, FileAll(codec, text, events), DiskAll(codec, d, events));
  }

  /** An append that writes something behind a record without its newline. */
  predicate Ruins(codec: Codec, d: Disk, e: Event) {
    d.Glued? && !e.Reading? && Fits(d.log + [d.t], e.t) && Written(codec, e) > 0
  }

  /** One log, if there is one, extends the other. */
  predicate Extends(a: Option<seq<Transaction>>, b: Option<seq<Transaction>>) {
    a.Some? && b.Some? && a.value <= b.value
  }

  lemma {:induction false} StepExtendsIff(codec: Codec, d: Disk, e: Event)
    requires !d.Spoiled?
    ensures Extends(LogOf(d), LogOf(DiskAfter(codec, d, e))) <==> !Ruins(codec, d, e)
  {
    hide Fits;
  }

  /** Up to event `n` the log that is read only ever grows. */
  predicate OnlyGrows(codec: Codec, d: Disk, events: seq<Event>, n: nat)
    requires n <= |events|
  {
    forall i :: 0 <= i < n ==> Extends(LogOf(DiskAll(codec, d, events[..i])), LogOf(DiskAll(codec, d, events[..i + 1])))
  }

  predicate NothingRuins(codec: Codec, d: Disk, events: seq<Event>, n: nat)
    requires n <= |events|
  {
    forall i :: 0 <= i < n ==> !Ruins(codec, DiskAll(codec, d, events[..i]), events[i])
  }

  lemma {:induction false} DiskSnoc(codec: Codec, d: Disk, events: seq<Event>, i: nat)
    requires i < |events|
    ensures DiskAll(codec, d, events[..i + 1]) == DiskAfter(codec, DiskAll(codec, d, events[..i]), events[i])
  {
    assert events[..i + 1][..i] == events[..i];
  }

  lemma {:induction false} DiskGrowsIff(codec: Codec, d: Disk, events: seq<Event>, n: nat)
    requires !d.Spoiled? && n <= |events|
    ensures OnlyGrows(codec, d, events, n) <==> NothingRuins(codec, d, events, n)
    ensures NothingRuins(codec, d, events, n) ==> !DiskAll(codec, d, events[..n]).Spoiled?
  {
    hide DiskAfter, Ruins;
    if n == 0 {
      assert events[..0] == [];
      return;
    }
    DiskGrowsIff(codec, d, events, n - 1);
    DiskSnoc(codec, d, events, n - 1);
    var before := DiskAll(codec, d, events[..n - 1]);
    if NothingRuins(codec, d, events, n - 1) { StepExtendsIff(codec, before, events[n - 1]); }
    assert OnlyGrows(codec, d, events, n) <==>
      OnlyGrows(codec, d, events, n - 1) && Extends(LogOf(before), LogOf(DiskAll(codec, d, events[..n])));
    assert NothingRuins(codec, d, events, n) <==>
      NothingRuins(codec, d, events, n - 1) && !Ruins(codec, before, events[n - 1]);
  }

  /** What the reader sees after `i` events. */
  function Seen(codec: Codec, text: string, events: seq<Event>, i: nat): Option<seq<Transaction>>
    requires i <= |events|
  {
    match Read(codec, FileAll(codec, text, events[..i]))
    case Ok(log) => Some(log)
    case Err(_) => None
  }

  lemma {:induction false} SeenIs(codec: Codec, text: string, d: Disk, events: seq<Event>, i: nat)
    requires Lawful(codec) && Means(codec, text, d) && AllHashed(codec, events) && i <= |events|
    ensures Seen(codec, text, events, i) == LogOf(DiskAll(codec, d, events[..i]))
  {
    hide Lawful, Means, Read, FileAll, DiskAll;
    RunDisk(codec, text, d, events[..i]);
  }

  /**
   * When a journal stays readable and never loses a record it returned: over any run from a readable file, exactly
   * if no append writes behind a record that a crash left without its newline.
   */
  lemma {:induction false} RunGrowsIff(codec: Codec, text: string, d: Disk, events: seq<Event>)
    requires Lawful(codec) && Means(codec, text, d) && !d.Spoiled? && AllHashed(codec, events)
    ensures (forall i :: 0 <= i < |events| ==> Extends(Seen(codec, text, events, i), Seen(codec, text, events, i + 1)))
       <==> NothingRuins(codec, d, events, |events|)
  {
    hide Lawful, Means, Seen, DiskAll, AllHashed, Ruins, Extends;
    forall i | 0 <= i <= |events|
      ensures Seen(codec, text, events, i) == LogOf(DiskAll(codec, d, events[..i]))
    {
      SeenIs(codec, text, d, events, i);
    }
    DiskGrowsIff(codec, d, events, |events|);
  }

  /** Two crashes that lose a record already read as committed: before a newline, then inside the next record. */
  lemma {:induction false} SecondCrashLoses(codec: Codec, log: seq<Transaction>, t: Transaction, u: Transaction, k: nat)
    requires Lawful(codec) && Verifies(codec, log) && Fits(log, t) && SelfHashed(codec, t)
    requires Fits(log + [t], u) && 0 < k <= |codec.encode(u)|
    ensures
      var first := FileAfter(codec, Render(codec, log), CutOff(t, |codec.encode(t)|));
      && Read(codec, first) == Ok(log + [t])
      && Read(codec, FileAfter(codec, first, CutOff(u, k))) == Ok(log)
  {
    hide Read, Repaired, Lawful, Verifies, Tailed, Render, Fits, SelfHashed, FileAfter;
    RenderTailed(codec, log);
    var first := FileAfter(codec, Render(codec, log), CutOff(t, |codec.encode(t)|));
    MeansStep(codec, Render(codec, log), Clean(log), CutOff(t, |codec.encode(t)|));
    MeansReads(codec, first, Glued(log, t));
    FileWrites(codec, first, CutOff(u, k));
    AcceptsIs(codec, first, Glued(log, t), u);
    GluedStep(codec, log, t, u, k);
    MeansReads(codec, FileAfter(codec, first, CutOff(u, k)), Clean(log));
  }

  lemma {:induction false} NoGlue(codec: Codec, log: seq<Transaction>, events: seq<Event>)
    requires forall i :: 0 <= i < |events| && events[i].CutOff? ==> events[i].k != |codec.encode(events[i].t)|
    ensures DiskAll(codec, Clean(log), events) == Clean(LogAll(codec, log, events))
    ensures log <= LogAll(codec, log, events)
  {
    if events != [] { NoGlue(codec, log, events[..|events| - 1]); }
  }

  /**
   * In particular, if no crash falls exactly between a record and its newline, the journal stays readable and
   * reads as the committed log, which verifies and only grows.
   */
  lemma {:induction false} RunWithCrashes(codec: Codec, log: seq<Transaction>, text: string, events: seq<Event>)
    requires Lawful(codec) && Means(codec, text, Clean(log)) && AllHashed(codec, events)
    requires forall i :: 0 <= i < |events| && events[i].CutOff? ==> events[i].k != |codec.encode(events[i].t)|
    ensures Verifies(codec, LogAll(codec, log, events)) && log <= LogAll(codec, log, events)
    ensures Read(codec, FileAll(codec, text, events)) == Ok(LogAll(codec, log, events))
  {
    RunDisk(codec, text, Clean(log), events);
    NoGlue(codec, log, events);
    hide Read, DiskAll, LogAll, FileAll, AllHashed;
  }

  /** The attempt at position `i` was committed. */
  predicate Committed(log: seq<Transaction>, attempts: seq<Transaction>, i: nat)
    requires i < |attempts|
  {
    Fits(CommitAll(log, attempts[..i]), attempts[i])
  }

  lemma {:induction false} CommitAllGrows(log: seq<Transaction>, attempts: seq<Transaction>, i: nat)
    requires i <= |attempts|
    ensures CommitAll(log, attempts[..i]) <= CommitAll(log, attempts)
    decreases |attempts| - i
  {
    if i == |attempts| {
      assert attempts[..i] == attempts;
    } else {
      CommitAllGrows(log, attempts, i + 1);
      assert attempts[..i + 1][..i] == attempts[..i];
    }
  }

  /** Two transactions prepared for the same position never both commit, whatever ran between them. */
  lemma {:induction false} OneWinner(log: seq<Transaction>, attempts: seq<Transaction>, i: nat, j: nat)
    requires i < j < |attempts| && attempts[i].body.sequence == attempts[j].body.sequence
    ensures !(Committed(log, attempts, i) && Committed(log, attempts, j))
  {
    var upto := attempts[..j];
    CommitAllGrows(log, upto, i + 1);
    assert upto[..i + 1][..i] == attempts[..i] && upto[..i + 1][i] == attempts[i];
    assert CommitAll(log, upto[..i + 1]) == Commit(CommitAll(log, attempts[..i]), attempts[i]);
  }

  ghost predicate CollisionFree(codec: Codec) {
    forall x: Body, y: Body :: codec.digest(x) == codec.digest(y) ==> x == y
  }

  /** Under a collision-free digest the head hash pins the whole log. */
  lemma {:induction false} HeadPinsLog(codec: Codec, a: seq<Transaction>, b: seq<Transaction>)
    requires CollisionFree(codec)
    requires Verifies(codec, a) && Verifies(codec, b)
    requires |a| == |b| && HeadHash(a) == HeadHash(b)
    ensures a == b
  {
    if a != [] {
      var n := |a| - 1;
      assert Link(codec, a, n) && Link(codec, b, n);
      assert a[n] == b[n];
      VerifiesPrefix(codec, a);
      VerifiesPrefix(codec, b);
      HeadPinsLog(codec, a[..n], b[..n]);
      assert a == a[..n] + [a[n]] && b == b[..n] + [b[n]];
    }
  }

  lemma {:induction false} VerifiesPrefix(codec: Codec, log: seq<Transaction>)
    requires Verifies(codec, log) && log != []
    ensures Verifies(codec, log[..|log| - 1])
  {
    var init := log[..|log| - 1];
    forall i | 0 <= i < |init| ensures Link(codec, init, i) {
      assert Link(codec, log, i);
    }
  }

  // ---------------------------------------------------------------------------------
  // Files of any content.

  lemma {:induction false} SingleLine(text: string)
    requires |Lines(text)| == 1
    ensures |Lines(text)[0]| == |text|
  {
    LinesBytes(text);
    assert Lines(text)[..0] == [];
  }

  /** Cutting off the last line leaves the other lines and an empty one. */
  predicate CutsOff(text: string) {
    var lines := Lines(text);
    var last := lines[|lines| - 1];
    |last| <= |text| && Lines(text[..|text| - |last|]) == lines[..|lines| - 1] + [""]
  }

  lemma {:induction false} CutMore(c: char, after: string)
    requires CutsOff(after) && (c == '\n' || |Lines(after)| > 1)
    ensures CutsOff([c] + after)
  {
    LinesFirst(c, after);
    hide Lines;
    var last := Lines(after)[|Lines(after)| - 1];
    var kept := after[..|after| - |last|];
    LinesFirst(c, kept);
    var text := [c] + after;
    assert text[..|text| - |last|] == [c] + kept;
  }

  lemma {:induction false} CutOnly(text: string)
    requires |Lines(text)| == 1
    ensures CutsOff(text)
  {
    SingleLine(text);
    assert text[..0] == "" && Lines(text)[..0] == [];
  }

  lemma {:induction false} LinesCut(text: string)
    ensures CutsOff(text)
  {
    if text == "" || |Lines(text)| == 1 {
      CutOnly(text);
      return;
    }
    LinesFirst(text[0], text[1..]);
    assert text == [text[0]] + text[1..];
    hide Lines, CutsOff;
    LinesCut(text[1..]);
    CutMore(text[0], text[1..]);
  }

  lemma {:induction false} LinesFirst(c: char, after: string)
    ensures Lines([c] + after) ==
              if c == '\n' then [""] + Lines(after) else [[c] + Lines(after)[0]] + Lines(after)[1..]
  {
    assert ([c] + after)[1..] == after;
  }

  /** Reading is stable: after any read, of any file, a second read returns the same and changes nothing. */
  lemma {:induction false} RereadStable(codec: Codec, text: string)
    ensures Repaired(codec, text) <= text
    ensures Repaired(codec, Repaired(codec, text)) == Repaired(codec, text)
    ensures Read(codec, Repaired(codec, text)) == Read(codec, text)
  {
    LinesCut(text);
    var lines := Lines(text);
    var kept := lines[..|lines| - 1];
    assert (kept + [""])[..|kept|] == kept;
  }
}
