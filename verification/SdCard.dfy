// The SD card behind the SPI: commands in, responses and blocks out, a byte each way at a
// time.
module SdCardModel {

  import opened Division
  import opened Words

  const CMD0: Byte := 0x40
  const CMD8: Byte := 0x48
  const CMD17: Byte := 0x51
  const CMD55: Byte := 0x77
  const ACMD41: Byte := 0x69
  const BLOCK := 512

  datatype CardState = SdMode | Init | Ready
  datatype CmdState = Idle | Cmd | R1 | R7 | R1Data | StartToken | Data | Crc1 | Crc2

  datatype Card = Card(image: seq<Byte>, sector: seq<Byte>, cardState: CardState, cmdState: CmdState,
                       cmdBuf: seq<Byte>, rspBuf: seq<Byte>, rspIdx: nat, outReg: Byte,
                       acmdPending: bool, acmd41Count: Byte, blockCount: nat) {
    predicate Valid() {
      && |sector| == BLOCK && |cmdBuf| < 6 && |rspBuf| == 5
      && (cmdBuf != [] ==> cmdState == Cmd)
      && (cmdState == R7 ==> 1 <= rspIdx <= 5)
      && (cmdState == Data ==> blockCount < BLOCK)
    }
  }

  function BlockNumber(cmd: seq<Byte>): nat
    requires |cmd| == 6
  {
    0x100_0000 * (cmd[1] as int) + 0x1_0000 * (cmd[2] as int) + 0x100 * (cmd[3] as int) + cmd[4]
  }

  // What reading a block leaves in the buffer: the image's bytes as far as they go, and
  // what was there before.
  function SectorRead(image: seq<Byte>, block: nat, sector: seq<Byte>): (s: seq<Byte>)
    requires |sector| == BLOCK
    ensures |s| == BLOCK
    ensures 512 * (block + 1) <= |image| ==> s == image[512 * block..512 * (block + 1)]
    ensures forall i :: 0 <= i < 512 ==> s[i] == if 512 * block + i < |image| then image[512 * block + i] else sector[i]
  {
    var from := BLOCK * block;
    if from >= |image| then sector
    else if from + BLOCK <= |image| then image[from..from + BLOCK]
    else image[from..] + sector[|image| - from..]
  }

  // A command is complete.
  function Commanded(c: Card, cmd: seq<Byte>): Card
    requires |cmd| == 6 && |c.sector| == BLOCK
  {
    match c.cardState
    case SdMode => c.(cardState := if cmd[0] == CMD0 then Init else SdMode, cmdState := R1, outReg := 0x01)
    case Init =>
      if cmd[0] == CMD8 then c.(cmdState := R7, rspIdx := 1, rspBuf := [0x01] + cmd[1..5])
      else if cmd[0] == CMD55 then c.(acmdPending := true, cmdState := R1, outReg := 0x01)
      else c
    case Ready =>
      if cmd[0] == CMD17 then
        c.(cmdState := R1Data, outReg := 0x00, sector := SectorRead(c.image, BlockNumber(cmd), c.sector))
      else c
  }

  // A command after CMD55 is complete.
  function AppCommanded(c: Card, cmd: seq<Byte>): Card
    requires |cmd| == 6
  {
    var d := c.(acmdPending := false);
    if d.cardState != Init then d.(cmdState := R1, outReg := 0x40)
    else if cmd[0] != ACMD41 then d
    else
      var n: Byte := (d.acmd41Count + 1) % 0x100;
      d.(acmd41Count := n, cmdState := R1,
         cardState := if n == 6 then Ready else Init, outReg := if n == 6 then 0 else 0x01)
  }

  // A byte from the master.
  function Put(c: Card, byte: Byte): (d: Card)
    requires c.Valid()
    ensures d.Valid()
  {
    if (c.cmdState == Idle && byte >= 0x80) || (c.cmdState != Idle && c.cmdState != Cmd) then c
    else
      var d := c.(cmdState := Cmd, cmdBuf := c.cmdBuf + [byte]);
      if |d.cmdBuf| < 6 then d
      else (if d.acmdPending then AppCommanded(d, d.cmdBuf) else Commanded(d, d.cmdBuf)).(cmdBuf := [])
  }

  // The byte for the master, and what sending it leads to.
  function Sent(c: Card): Byte {
    c.outReg
  }

  function Get(c: Card): (d: Card)
    requires c.Valid()
    ensures d.Valid()
  {
    match c.cmdState
    case R1 => c.(outReg := 0xFF, cmdState := Idle)
    case R7 =>
      if c.rspIdx == 5 then c.(outReg := 0xFF, cmdState := Idle, rspIdx := 0)
      else c.(outReg := c.rspBuf[c.rspIdx], rspIdx := c.rspIdx + 1)
    case R1Data => c.(outReg := 0xFF, cmdState := StartToken)
    case StartToken => c.(outReg := 0xFE, cmdState := Data, blockCount := 0)
    case Data =>
      c.(outReg := c.sector[c.blockCount], blockCount := c.blockCount + 1,
         cmdState := if c.blockCount + 1 == BLOCK then Crc1 else Data)
    case Crc1 => c.(outReg := 0x00, cmdState := Crc2)
    case Crc2 => c.(outReg := 0x00, cmdState := Idle)
    case _ => c.(outReg := 0xFF)
  }

  // A byte each way, the card's latched first; and many.
  function Exchanged(c: Card, byte: Byte): Card
    requires c.Valid()
  {
    Put(Get(c), byte)
  }

  function After(c: Card, bytes: seq<Byte>): (d: Card)
    requires c.Valid()
    ensures d.Valid()
  {
    if bytes == [] then c else Exchanged(After(c, bytes[..|bytes| - 1]), bytes[|bytes| - 1])
  }

  function Response(c: Card, bytes: seq<Byte>): (r: seq<Byte>)
    requires c.Valid()
    ensures |r| == |bytes|
  {
    if bytes == [] then []
    else Response(c, bytes[..|bytes| - 1]) + [Sent(After(c, bytes[..|bytes| - 1]))]
  }

  lemma {:induction false} Continued(c: Card, s: seq<Byte>, t: seq<Byte>)
    requires c.Valid()
    ensures After(c, s + t) == After(After(c, s), t)
    ensures Response(c, s + t) == Response(c, s) + Response(After(c, s), t)
  {
    hide Put, Get, Sent, Exchanged;
    if t == [] {
      assert s + t == s;
    } else {
      var n := |t| - 1;
      Continued(c, s, t[..n]);
      var all := s + t;
      assert all[..|all| - 1] == s + t[..n] && all[|all| - 1] == t[n];
    }
  }

  // While a block goes out, k bytes after the start of the response.
  ghost predicate Sending(c: Card, sector: seq<Byte>, k: nat) {
    && c.Valid() && c.cardState == Ready && c.sector == sector && k <= BLOCK + 5 && !c.acmdPending
    && (k == 0 ==> c.cmdState == R1Data && c.outReg == 0x00)
    && (k == 1 ==> c.cmdState == StartToken && c.outReg == 0xFF)
    && (k == 2 ==> c.cmdState == Data && c.outReg == 0xFE && c.blockCount == 0)
    && (2 < k < BLOCK + 2 ==> c.cmdState == Data && c.outReg == sector[k - 3] && c.blockCount == k - 2)
    && (k == BLOCK + 2 ==> c.cmdState == Crc1 && c.outReg == sector[BLOCK - 1])
    && (k == BLOCK + 3 ==> c.cmdState == Crc2 && c.outReg == 0x00)
    && (k == BLOCK + 4 ==> c.cmdState == Idle && c.outReg == 0x00)
    && (k == BLOCK + 5 ==> c.cmdState == Idle && c.outReg == 0xFF)
  }

  function Reply(sector: seq<Byte>, k: nat): Byte
    requires |sector| == BLOCK
  {
    if k == 0 then 0x00
    else if k == 1 then 0xFF
    else if k == 2 then 0xFE
    else if k < BLOCK + 3 then sector[k - 3]
    else 0x00
  }

  function Replies(sector: seq<Byte>, n: nat): (r: seq<Byte>)
    requires |sector| == BLOCK
    ensures |r| == n
  {
    if n == 0 then [] else Replies(sector, n - 1) + [Reply(sector, n - 1)]
  }

  // What the master sends meanwhile makes no difference until the card is idle again.
  lemma SendingNext(c: Card, sector: seq<Byte>, k: nat, byte: Byte)
    requires Sending(c, sector, k) && k < BLOCK + 5 && (k >= BLOCK + 3 ==> byte >= 0x80)
    ensures Sending(Exchanged(c, byte), sector, k + 1) && Sent(c) == Reply(sector, k)
  {
  }

  lemma {:induction false} Stream(c: Card, sector: seq<Byte>, fill: seq<Byte>)
    requires Sending(c, sector, 0) && |fill| <= BLOCK + 5 && forall i :: BLOCK + 3 <= i < |fill| ==> fill[i] >= 0x80
    ensures Sending(After(c, fill), sector, |fill|) && Response(c, fill) == Replies(sector, |fill|)
  {
    hide Sending, Reply, Exchanged;
    Length(c, sector);
    if fill != [] {
      var n := |fill| - 1;
      Stream(c, sector, fill[..n]);
      SendingNext(After(c, fill[..n]), sector, n, fill[n]);
    }
  }

  lemma Length(c: Card, sector: seq<Byte>)
    requires Sending(c, sector, 0)
    ensures c.Valid() && |sector| == BLOCK
  {
  }

  lemma {:induction false} RepliesAre(sector: seq<Byte>, n: nat)
    requires |sector| == BLOCK
    ensures forall k :: 0 <= k < n ==> Replies(sector, n)[k] == Reply(sector, k)
  {
    if n > 0 {
      RepliesAre(sector, n - 1);
    }
  }

  lemma BlockReplies(sector: seq<Byte>)
    requires |sector| == BLOCK
    ensures Replies(sector, BLOCK + 5) == [0x00, 0xFF, 0xFE] + sector + [0x00, 0x00]
  {
    RepliesAre(sector, BLOCK + 5);
  }

  // A card ready for a command, and after i bytes of it.
  ghost predicate Receiving(c: Card, d: Card, cmd: seq<Byte>, i: nat)
    requires i < 6 <= |cmd|
  {
    && d.Valid() && d.image == c.image && d.sector == c.sector && d.cardState == c.cardState
    && !d.acmdPending && d.cmdBuf == cmd[..i] && d.cmdState == (if i == 0 then Idle else Cmd)
    && (i > 0 ==> d.outReg == 0xFF)
  }

  lemma ReceivesCommand(c: Card, cmd: seq<Byte>, i: nat)
    requires c.Valid() && c.cmdState == Idle && !c.acmdPending && |cmd| == 6 && cmd[0] < 0x80 && i < 6
    ensures Receiving(c, After(c, cmd[..i]), cmd, i)
  {
    if i > 0 {
      CommandSoFar(c, cmd, i);
    }
  }

  // The block a command names, most significant byte first.
  ghost predicate Names(cmd: seq<Byte>, block: nat) {
    |cmd| == 6
    && block == 16_777_216 * (cmd[1] as int) + 65_536 * (cmd[2] as int) + 256 * (cmd[3] as int) + cmd[4] as int
  }

  lemma NamedBlock(cmd: seq<Byte>, block: nat)
    requires Names(cmd, block)
    ensures BlockNumber(cmd) == block
  {
  }

  // Reading a block, as section 7.2.3 of the SD Physical Layer Simplified Specification
  // has it: after CMD17 the card answers with 00, one byte of waiting, the start token FE,
  // the block's bytes and two checksum bytes, which are zero.
  lemma ReadBlock(c: Card, cmd: seq<Byte>, block: nat, fill: seq<Byte>)
    requires c.Valid() && c.cmdState == Idle && !c.acmdPending && c.cardState == Ready
    requires |cmd| == 6 && cmd[0] == 0x51 && Names(cmd, block) && 512 * (block + 1) <= |c.image|
    requires |fill| == 517 && fill[515] >= 0x80 && fill[516] >= 0x80
    ensures Response(c, cmd + fill)[6..] ==
      [0x00, 0xFF, 0xFE] + c.image[512 * block..512 * (block + 1)] + [0x00, 0x00]
    ensures After(c, cmd + fill).cmdState == Idle && After(c, cmd + fill).cardState == Ready
    ensures After(c, cmd + fill).image == c.image && !After(c, cmd + fill).acmdPending
  {
    hide Sending, Put, Get, Receiving, After, Response, Replies, BlockNumber, Names;
    NamedBlock(cmd, block);
    var bytes := c.image[512 * block..512 * (block + 1)];
    var d := After(c, cmd);
    BlockRead(c, cmd);
    Stream(d, bytes, fill);
    Continued(c, cmd, fill);
    BlockReplies(bytes);
    SentAll(After(d, fill), bytes);
    Keeps(c, cmd + fill);
  }

  // The image is never changed.
  lemma {:induction false} Keeps(c: Card, bytes: seq<Byte>)
    requires c.Valid()
    ensures After(c, bytes).image == c.image
  {
    if bytes != [] {
      Keeps(c, bytes[..|bytes| - 1]);
    }
  }

  lemma SentAll(c: Card, sector: seq<Byte>)
    requires Sending(c, sector, BLOCK + 5)
    ensures c.cmdState == Idle && c.cardState == Ready && !c.acmdPending
  {
  }

  lemma BlockRead(c: Card, cmd: seq<Byte>)
    requires c.Valid() && c.cmdState == Idle && !c.acmdPending && c.cardState == Ready
    requires |cmd| == 6 && cmd[0] == CMD17 && BLOCK * (BlockNumber(cmd) + 1) <= |c.image|
    ensures Sending(After(c, cmd), c.image[BLOCK * BlockNumber(cmd)..BLOCK * (BlockNumber(cmd) + 1)], 0)
  {
    ReceivesCommand(c, cmd, 5);
    assert cmd[..5] + [cmd[5]] == cmd;
  }

  // CMD8 is answered with its own argument.  The first byte of the response buffer, 01, is
  // never sent: what comes before the argument is the filler FF.
  lemma Cmd8Echo(c: Card, cmd: seq<Byte>, fill: seq<Byte>)
    requires c.Valid() && c.cmdState == Idle && !c.acmdPending && c.cardState == Init
    requires |cmd| == 6 && cmd[0] == 0x48 && |fill| == 5
    ensures Response(After(c, cmd), fill) == [0xFF] + cmd[1..5]
  {
    hide Put, Get, Response;
    EchoReady(c, cmd);
    Echoes(After(c, cmd), [0xFF] + cmd[1..5], fill, 5);
    assert fill[..5] == fill;
  }

  lemma EchoReady(c: Card, cmd: seq<Byte>)
    requires c.Valid() && c.cmdState == Idle && !c.acmdPending && c.cardState == Init
    requires |cmd| == 6 && cmd[0] == CMD8
    ensures var d := After(c, cmd);
      d.Valid() && d.cmdState == R7 && d.rspIdx == 1 && d.outReg == 0xFF && d.rspBuf == [0x01] + cmd[1..5]
  {
    ReceivesCommand(c, cmd, 5);
    assert cmd[..5] + [cmd[5]] == cmd;
  }

  lemma {:induction false} Echoes(c: Card, reply: seq<Byte>, fill: seq<Byte>, k: nat)
    requires |reply| == 5 == |fill| && k <= 5
    requires c.Valid() && c.cmdState == R7 && c.rspIdx == 1 && c.outReg == 0xFF == reply[0]
    requires c.rspBuf[1..] == reply[1..]
    ensures Response(c, fill[..k]) == reply[..k]
    ensures k < 5 ==>
      var d := After(c, fill[..k]);
      d.cmdState == R7 && d.rspIdx == k + 1 && d.rspBuf == c.rspBuf && d.outReg == reply[k]
  {
    hide Put, Get, Exchanged;
    if k > 0 {
      Echoes(c, reply, fill, k - 1);
      var now, before := fill[..k], fill[..k - 1];
      assert |now| == k && now[..k - 1] == before && now[k - 1] == fill[k - 1];
      if k < 5 {
        EchoNext(After(c, fill[..k - 1]), fill[k - 1]);
        assert reply[k] == reply[1..][k - 1] == c.rspBuf[1..][k - 1];
      }
    }
  }

  lemma EchoNext(c: Card, byte: Byte)
    requires c.Valid() && c.cmdState == R7 && c.rspIdx < 5
    ensures var d := Exchanged(c, byte);
      d.cmdState == R7 && d.rspIdx == c.rspIdx + 1 && d.rspBuf == c.rspBuf && d.outReg == c.rspBuf[c.rspIdx]
  {
  }

  // ----- unknown commands -----

  predicate Known(state: CardState, code: Byte) {
    match state
    case SdMode => true
    case Init => code == 0x48 || code == 0x77
    case Ready => code == 0x51
  }

  // A card that has just ignored a command still collects one.
  predicate Stuck(c: Card) {
    c.cmdState == Cmd && c.cmdBuf == [] && !c.acmdPending && !c.cardState.SdMode?
  }

  // An idle card that gets a command it does not know, or after CMD55 another one than
  // ACMD41 while it initialises, is not idle afterwards.
  lemma UnknownCommand(c: Card, cmd: seq<Byte>)
    requires c.Valid() && c.cmdState == Idle && |cmd| == 6 && cmd[0] < 0x80
    ensures var known := if c.acmdPending then c.cardState != Init || cmd[0] == 0x69 else Known(c.cardState, cmd[0]);
      Stuck(After(c, cmd)) <==> !known
    ensures Stuck(After(c, cmd)) ==> After(c, cmd) == c.(cmdState := Cmd, outReg := 0xFF, acmdPending := false)
  {
    CommandSoFar(c, cmd, 5);
    assert cmd[..5] + [cmd[5]] == cmd;
  }

  lemma Collects(c: Card, byte: Byte)
    requires c.Valid() && c.cmdState == Cmd && |c.cmdBuf| < 5
    ensures Exchanged(c, byte) == c.(outReg := 0xFF, cmdBuf := c.cmdBuf + [byte])
  {
  }

  // Nothing but the buffer changes while a command is collected.
  lemma {:induction false} CommandSoFar(c: Card, cmd: seq<Byte>, i: nat)
    requires c.Valid() && c.cmdState == Idle && |cmd| == 6 && cmd[0] < 0x80 && 1 <= i < 6
    ensures After(c, cmd[..i]) == c.(cmdState := Cmd, cmdBuf := cmd[..i], outReg := 0xFF)
  {
    assert cmd[..i][..i - 1] == cmd[..i - 1];
    assert cmd[..i] == cmd[..i - 1] + [cmd[i - 1]];
    if i > 1 {
      CommandSoFar(c, cmd, i - 1);
      Collects(After(c, cmd[..i - 1]), cmd[i - 1]);
      hide Exchanged;
    } else {
      assert After(c, cmd[..0]) == c;
    }
  }

  // What is left over when bytes are taken by sixes.
  function Part(bytes: seq<Byte>): (part: seq<Byte>)
    ensures |part| == |bytes| % 6
  {
    bytes[|bytes| - |bytes| % 6..]
  }

  lemma PartCommand(bytes: seq<Byte>)
    requires bytes != []
    ensures var n := |bytes| - 1; var part := Part(bytes[..n]);
      && Part(bytes) == (if |part| == 5 then [] else part + [bytes[n]])
      && (|part| == 5 ==> n >= 5 && (n - 5) % 6 == 0 && part[0] == bytes[n - 5])
  {
    var n := |bytes| - 1;
    var r := n % 6;
    Successor(n, 6);
    assert |bytes| % 6 == if r == 5 then 0 else r + 1;
    if r == 5 {
      MultipleOfSix(n);
    }
    assert bytes[..n][n - r..] + [bytes[n]] == bytes[n - r..];
  }

  lemma MultipleOfSix(n: nat)
    requires n % 6 == 5
    ensures n >= 5 && (n - 5) % 6 == 0
  {
    Quotient(n - 5, 6, n / 6);
  }

  // One more byte for such a card.
  lemma StuckNext(c: Card, byte: Byte)
    requires c.Valid() && c.cmdState == Cmd && !c.acmdPending && !c.cardState.SdMode?
    requires |c.cmdBuf| == 5 ==> !Known(c.cardState, c.cmdBuf[0])
    ensures Exchanged(c, byte) == c.(outReg := 0xFF, cmdBuf := if |c.cmdBuf| == 5 then [] else c.cmdBuf + [byte])
  {
  }

  // It takes whatever comes next as commands: after n bytes, none of which a known command
  // starts with, the last n % 6 of them are in the buffer.
  lemma {:induction false} StuckCollects(c: Card, bytes: seq<Byte>)
    requires c.Valid() && Stuck(c)
    requires forall i :: 0 <= i < |bytes| && i % 6 == 0 && i + 6 <= |bytes| ==> !Known(c.cardState, bytes[i])
    ensures After(c, bytes) ==
            if bytes == [] then c else c.(outReg := 0xFF, cmdBuf := Part(bytes))
  {
    hide Exchanged, Known;
    if bytes != [] {
      var n := |bytes| - 1;
      StuckCollects(c, bytes[..n]);
      PartCommand(bytes);
      hide Part;
      StuckNext(After(c, bytes[..n]), bytes[n]);
    }
  }

  function Filler(n: nat): seq<Byte> {
    seq(n, _ => 0xFF)
  }

  // So after an unknown command and n bytes of filler a command that the card knows takes
  // effect just if the filler happens to fill up whole commands.
  lemma AnsweredAgain(c: Card, n: nat, cmd: seq<Byte>)
    requires c.Valid() && Stuck(c) && |cmd| == 6 && Known(c.cardState, cmd[0])
    ensures After(c, Filler(n) + cmd).cmdState != Cmd <==> n % 6 == 0
    ensures n % 6 != 0 ==> After(c, Filler(n) + cmd) == c.(outReg := 0xFF, cmdBuf := cmd[6 - n % 6..])
  {
    hide After, Known;
    var bytes := Filler(n) + cmd;
    FillerUnknown(c.cardState);
    if n % 6 == 0 {
      StuckCollects(c, Filler(n));
      Continued(c, Filler(n), cmd);
      StuckAnswers(After(c, Filler(n)), cmd);
    } else {
      SixMore(n);
      assert |bytes| == n + 6;
      forall i | 0 <= i < |bytes| && i % 6 == 0 && i + 6 <= |bytes|
        ensures !Known(c.cardState, bytes[i])
      {
        assert i != n;
        assert bytes[i] == Filler(n)[i];
      }
      StuckCollects(c, bytes);
      assert Part(bytes) == cmd[6 - n % 6..];
      hide Part, Filler;
    }
  }

  lemma SixMore(n: nat)
    ensures (n + 6) % 6 == n % 6
  {
    assert n == 6 * (n / 6) + n % 6;
    Quotient(n + 6, 6, n / 6 + 1);
  }

  lemma FillerUnknown(state: CardState)
    ensures !state.SdMode? ==> !Known(state, 0xFF)
  {
  }

  lemma StuckAnswers(c: Card, cmd: seq<Byte>)
    requires c.Valid() && Stuck(c) && |cmd| == 6 && Known(c.cardState, cmd[0])
    ensures After(c, cmd).cmdState != Cmd
    ensures c.cardState == Ready ==> After(c, cmd).cmdState == R1Data
  {
    StuckCollects(c, cmd[..5]);
    assert cmd[..5] + [cmd[5]] == cmd;
  }

  // A ready card that has been sent a command other than CMD17, and then n bytes of filler,
  // starts to answer a CMD17 just if n is a multiple of six.
  lemma ReadAfterUnknown(c: Card, unknown: seq<Byte>, n: nat, cmd: seq<Byte>)
    requires c.Valid() && c.cmdState == Idle && !c.acmdPending && c.cardState == Ready
    requires |unknown| == 6 && unknown[0] < 0x80 && unknown[0] != 0x51
    requires |cmd| == 6 && cmd[0] == 0x51
    ensures After(c, unknown + (Filler(n) + cmd)).cmdState == R1Data <==> n % 6 == 0
  {
    UnknownCommand(c, unknown);
    var d := After(c, unknown);
    Continued(c, unknown, Filler(n) + cmd);
    AnsweredAgain(d, n, cmd);
    if n % 6 == 0 {
      StuckCollects(d, Filler(n));
      Continued(d, Filler(n), cmd);
      StuckAnswers(After(d, Filler(n)), cmd);
    }
  }

  // ----- bringing the card up -----

  // A command and a byte to take the answer with.
  ghost predicate Asks(bytes: seq<Byte>, code: Byte) {
    |bytes| == 7 && bytes[0] == code && bytes[6] >= 0x80
  }

  // The card is ready for a command, in a state of its initialisation.
  ghost predicate Waits(c: Card, state: CardState, pending: bool, count: nat) {
    c.Valid() && c.cmdState == Idle && c.cardState == state && c.acmdPending == pending && c.acmd41Count == count
  }

  // CMD0 takes a card out of SD mode, and any other command is answered likewise.
  lemma Resets(c: Card, bytes: seq<Byte>, code: Byte, count: nat)
    requires Waits(c, SdMode, false, count) && Asks(bytes, code) && code < 0x80
    ensures Waits(After(c, bytes), if code == 0x40 then Init else SdMode, false, count)
    ensures Response(c, bytes)[6] == 0x01
  {
    OneCommand(c, bytes);
  }

  // CMD55 announces an application command.
  lemma Announces(c: Card, bytes: seq<Byte>, count: nat)
    requires Waits(c, Init, false, count) && Asks(bytes, 0x77)
    ensures Waits(After(c, bytes), Init, true, count) && Response(c, bytes)[6] == 0x01
  {
    OneCommand(c, bytes);
  }

  // The sixth ACMD41 makes the card ready, and answers so.
  lemma Counts(c: Card, bytes: seq<Byte>, count: nat)
    requires Waits(c, Init, true, count) && count < 255 && Asks(bytes, 0x69)
    ensures Waits(After(c, bytes), if count == 5 then Ready else Init, false, count + 1)
    ensures Response(c, bytes)[6] == if count == 5 then 0x00 else 0x01
  {
    OneCommand(c, bytes);
  }

  // Outside its initialisation a card does not know application commands.
  lemma Refuses(c: Card, bytes: seq<Byte>, code: Byte, count: nat)
    requires Waits(c, c.cardState, true, count) && c.cardState != Init && Asks(bytes, code) && code < 0x80
    ensures Waits(After(c, bytes), c.cardState, false, count) && Response(c, bytes)[6] == 0x40
  {
    OneCommand(c, bytes);
  }

  lemma OneCommand(c: Card, bytes: seq<Byte>)
    requires c.Valid() && c.cmdState == Idle && |bytes| == 7 && bytes[0] < 0x80
    ensures var cmd := bytes[..6];
      var d := c.(cmdState := Cmd, cmdBuf := cmd, outReg := 0xFF);
      var e := (if c.acmdPending then AppCommanded(d, cmd) else Commanded(d, cmd)).(cmdBuf := []);
      e.Valid() && After(c, bytes) == Exchanged(e, bytes[6]) && Response(c, bytes)[6] == e.outReg
  {
    hide AppCommanded, Commanded;
    var cmd := bytes[..6];
    CommandSoFar(c, cmd, 5);
    assert cmd[..5] == bytes[..5] && cmd[..5] + [cmd[5]] == cmd;
    assert bytes[..6][..5] == cmd[..5] && bytes[..|bytes| - 1] == cmd;
    assert After(c, cmd) == Exchanged(After(c, cmd[..5]), cmd[5]);
    assert Response(c, bytes) == Response(c, cmd) + [Sent(After(c, cmd))];
  }

  // Bytes of an initialisation: n times CMD55 and ACMD41.
  ghost predicate Rounds(bytes: seq<Byte>, n: nat) {
    |bytes| == 14 * n && forall k :: 0 <= k < n ==>
      Asks(bytes[14 * k..14 * k + 7], 0x77) && Asks(bytes[14 * k + 7..14 * k + 14], 0x69)
  }

  lemma OneRound(c: Card, announce: seq<Byte>, count: seq<Byte>, n: nat)
    requires Waits(c, Init, false, n) && n < 255 && Asks(announce, 0x77) && Asks(count, 0x69)
    ensures Waits(After(c, announce + count), if n == 5 then Ready else Init, false, n + 1)
  {
    hide Asks, After;
    Announces(c, announce, n);
    Counts(After(c, announce), count, n);
    Continued(c, announce, count);
  }

  lemma FirstRounds(bytes: seq<Byte>, n: nat)
    requires Rounds(bytes, n + 1)
    ensures Rounds(bytes[..14 * n], n)
    ensures Asks(bytes[14 * n..14 * n + 7], 0x77) && Asks(bytes[14 * n + 7..14 * n + 14], 0x69)
    ensures bytes == bytes[..14 * n] + (bytes[14 * n..14 * n + 7] + bytes[14 * n + 7..14 * n + 14])
  {
    hide Asks;
    var before := bytes[..14 * n];
    forall k | 0 <= k < n
      ensures Asks(before[14 * k..14 * k + 7], 0x77) && Asks(before[14 * k + 7..14 * k + 14], 0x69)
    {
      assert before[14 * k..14 * k + 7] == bytes[14 * k..14 * k + 7];
      assert before[14 * k + 7..14 * k + 14] == bytes[14 * k + 7..14 * k + 14];
    }
  }

  // After CMD0 a card is ready just once it has been asked six times.
  lemma {:induction false} Initialises(c: Card, bytes: seq<Byte>, n: nat)
    requires Waits(c, Init, false, 0) && Rounds(bytes, n) && n <= 6
    ensures Waits(After(c, bytes), if n == 6 then Ready else Init, false, n)
  {
    Waiting(c, Init, false, 0);
    if n == 0 {
      NoBytes(c, bytes);
    } else {
      hide Waits, Asks, After, Rounds;
      var m := n - 1;
      Size(bytes, n);
      var before, announce, count := bytes[..14 * m], bytes[14 * m..14 * m + 7], bytes[14 * m + 7..14 * m + 14];
      FirstRounds(bytes, m);
      Initialises(c, before, m);
      OneRound(After(c, before), announce, count, m);
      Continued(c, before, announce + count);
    }
  }

  lemma Size(bytes: seq<Byte>, n: nat)
    requires Rounds(bytes, n)
    ensures |bytes| == 14 * n
  {
  }

  lemma NoBytes(c: Card, bytes: seq<Byte>)
    requires c.Valid() && bytes == []
    ensures After(c, bytes) == c
  {
  }

  lemma Waiting(c: Card, state: CardState, pending: bool, count: nat)
    requires Waits(c, state, pending, count)
    ensures c.Valid()
  {
  }

  class SdCard {
    const image: seq<Byte>
    var sector: seq<Byte>
    var cardState: CardState
    var cmdState: CmdState
    var cmdBuf: seq<Byte>
    var rspBuf: seq<Byte>
    var rspIdx: nat
    var outReg: Byte
    var acmdPending: bool
    var acmd41Count: Byte
    var blockCount: nat

    constructor (image: seq<Byte>)
      ensures State().image == image && Waits(State(), SdMode, false, 0)
    {
      this.image, sector := image, seq(BLOCK, _ => 0);
      cardState, cmdState, cmdBuf, rspBuf, rspIdx := SdMode, Idle, [], [0, 0, 0, 0, 0], 0;
      outReg, acmdPending, acmd41Count, blockCount := 0xFF, false, 0, 0;
    }

    function State(): Card
      reads this
    {
      Card(image, sector, cardState, cmdState, cmdBuf, rspBuf, rspIdx, outReg, acmdPending, acmd41Count, blockCount)
    }

    method HandleCmd()
      requires |cmdBuf| == 6 && |sector| == BLOCK
      modifies this
      ensures State() == Commanded(old(State()), old(cmdBuf))
    {
      match cardState {
        case SdMode =>
          if cmdBuf[0] == CMD0 {
            cardState := Init;
          }
          cmdState, outReg := R1, 0x01;
        case Init =>
          if cmdBuf[0] == CMD8 {
            cmdState, rspIdx := R7, 1;
            rspBuf := [0x01] + cmdBuf[1..5];
          } else if cmdBuf[0] == CMD55 {
            acmdPending, cmdState, outReg := true, R1, 0x01;
          }
        case Ready =>
          if cmdBuf[0] == CMD17 {
            cmdState, outReg := R1Data, 0x00;
            sector := SectorRead(image, BlockNumber(cmdBuf), sector);
          }
      }
    }

    method HandleAcmd()
      requires |cmdBuf| == 6
      modifies this
      ensures State() == AppCommanded(old(State()), old(cmdBuf))
    {
      if cardState == Init {
        if cmdBuf[0] == ACMD41 {
          acmd41Count := (acmd41Count + 1) % 0x100;
          if acmd41Count == 6 {
            cardState, outReg := Ready, 0;
          } else {
            outReg := 0x01;
          }
          cmdState := R1;
        }
      } else {
        cmdState, outReg := R1, 0x40;
      }
      acmdPending := false;
    }

    method SpiWrite(byte: Byte)
      requires State().Valid()
      modifies this
      ensures State() == Put(old(State()), byte)
    {
      if cmdState == Idle {
        if byte >= 0x80 {
          return;
        }
        cmdState := Cmd;
      }
      if cmdState != Cmd {
        return;
      }
      cmdBuf := cmdBuf + [byte];
      if |cmdBuf| == 6 {
        if acmdPending {
          HandleAcmd();
        } else {
          HandleCmd();
        }
        cmdBuf := [];
      }
    }

    method SpiGet() returns (out: Byte)
      requires State().Valid()
      modifies this
      ensures out == Sent(old(State())) && State() == Get(old(State()))
    {
      out := outReg;
      match cmdState
      case R1 => outReg, cmdState := 0xFF, Idle;
      case R7 =>
        if rspIdx == 5 {
          outReg, cmdState, rspIdx := 0xFF, Idle, 0;
        } else {
          outReg := rspBuf[rspIdx];
          rspIdx := rspIdx + 1;
        }
      case R1Data => outReg, cmdState := 0xFF, StartToken;
      case StartToken => outReg, cmdState, blockCount := 0xFE, Data, 0;
      case Data =>
        outReg := sector[blockCount];
        blockCount := blockCount + 1;
        if blockCount == BLOCK {
          cmdState := Crc1;
        }
      case Crc1 => outReg, cmdState := 0x00, Crc2;
      case Crc2 => outReg, cmdState := 0x00, Idle;
      case _ => outReg := 0xFF;
    }
  }
}
