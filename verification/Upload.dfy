/** `upload_data` as the source has it: flags, counters and three buffers, updated in place. Each
    pass of the loop is proved to be one step of the phase machine. */
module Upload {
  import opened Bytes
  import opened Wrappers
  import opened Crc
  import opened FrameMachine

  /** The local variables of one call. */
  class Call {
    const tempBuffer: array<byte>
    const finalChar: array<byte>
    const chkSum: array<byte>
    var oldLength: nat
    var palint: nat
    var chksumFlag: bool
    var sofData: nat
    var a: nat
    var lengthFlag: bool
    var startReceive: bool
    var num: nat
    var length: nat
    var printChar: bool
    var endPacket: bool
    var questionReceived: bool
    var bailOut: nat
    var exit: Exit
    // What the call has written to the port and to the record files.
    var tx: seq<byte>
    var file: seq<byte>
    ghost var log: seq<Frame>

    /** The control-state invariant between passes. */
    ghost predicate Valid()
      reads this, tempBuffer
    {
      && tempBuffer.Length == BUFFER && finalChar.Length == BUFFER && chkSum.Length == 6
      && tempBuffer != finalChar && tempBuffer != chkSum && finalChar != chkSum
      // at most one of the three flags is set, and one is set exactly inside a frame
      && !(lengthFlag && startReceive) && !(lengthFlag && chksumFlag) && !(startReceive && chksumFlag)
      && (sofData > 0 <==> lengthFlag || startReceive || chksumFlag)
      // `a` counts check bytes
      && a <= 1 && (a == 1 ==> chksumFlag)
      && (sofData > 0 ==> tempBuffer[0] == DOLLAR)
      && (startReceive || chksumFlag ==> length == Value(tempBuffer[1]))
      // while receiving, a payload byte is still missing, and the next one has room when L >= 3
      && (startReceive ==> num + 2 <= BUFFER && (length >= 3 ==> num < length - 2))
      && (chksumFlag ==> 3 <= length <= 255)
      && oldLength <= BUFFER
    }

    ghost function PhaseOf(): Phase
      requires Valid()
      reads this, tempBuffer, chkSum
    {
      if lengthFlag then Length
      else if startReceive then Payload(tempBuffer[1], tempBuffer[2..num + 2])
      else if chksumFlag then Check(tempBuffer[1], tempBuffer[2..length], if a == 0 then None else Some(chkSum[0]))
      else Idle
    }

    ghost function View(): State
      requires Valid()
      reads this, tempBuffer, finalChar, chkSum
    {
      State(PhaseOf(), palint, questionReceived, bailOut, endPacket, printChar,
            finalChar[..oldLength], tx, file, log, exit)
    }

    ghost function Footprint(): set<object>
      reads this
    {
      {this, tempBuffer, finalChar, chkSum}
    }

    constructor ()
      ensures Valid() && View() == START && fresh(Footprint())
    {
      tempBuffer := new byte[1000](_ => 0);
      finalChar := new byte[1000](_ => 0);
      chkSum := new byte[6](_ => 0);
      oldLength, palint, sofData, a, num, length, bailOut := 0, 0, 0, 0, 0, 0, 0;
      chksumFlag, lengthFlag, startReceive := false, false, false;
      printChar, endPacket, questionReceived := false, false, false;
      exit := Running;
      tx, file, log := [], [], [];
    }

    /** The receive loop: passes until the call ends, or the events run out. */
    method Loop(events: seq<Event>) returns (used: nat)
      requires Valid() && exit == Running
      modifies Footprint()
      ensures Valid() && used <= |events|
      ensures View() == Run(old(View()), events[..used])
      ensures exit == Running ==> used == |events|
      ensures exit != Running ==> used > 0 && Run(old(View()), events[..used - 1]).exit == Running
    {
      hide Step, Value;
      used := 0;
      while exit == Running && used < |events|
        invariant used <= |events|
        invariant Valid() && View() == Run(old(View()), events[..used])
        invariant exit != Running ==> used > 0 && Run(old(View()), events[..used - 1]).exit == Running
        decreases |events| - used
      {
        assert events[..used + 1][..used] == events[..used];
        Pass(events[used]);
        used := used + 1;
      }
    }

    /** One pass of the receive loop. */
    method Pass(e: Event)
      requires Valid() && exit == Running
      modifies Footprint()
      ensures Valid()
      ensures View() == Step(old(View()), e)
    {
      hide Byte, Value;
      if e.ReadFailed? {
        exit := ReadError;
        return;
      }
      if !questionReceived {
        bailOut := bailOut + 1;
        if bailOut > 25 {
          exit := NoPrompt;
          return;
        }
      }
      Receive(e.ch, e.writable);
    }

    /** The pass once the read has succeeded and patience is not exhausted. */
    method Receive(ch: byte, writable: bool)
      requires Valid() && exit == Running
      modifies Footprint()
      ensures Valid()
      ensures View() == Byte(old(View()), ch, writable)
    {
      hide InPhase, Value;
      if ch == 0 && !chksumFlag {
        return;
      }
      if ch == HASH {
        palint := palint + 1;
        if palint > 3 {
          oldLength := 0;
          finalChar[0] := 0;
          exit := Discarded;
          return;
        }
      } else {
        palint := 0;
      }
      InFrame(ch, writable);
    }

    /** The rest of the pass, once the byte has been counted as a hash or not. */
    method InFrame(ch: byte, writable: bool)
      requires Valid() && exit == Running
      requires ch != 0 || chksumFlag
      modifies Footprint()
      ensures Valid()
      ensures View() == InPhase(old(View()), ch, writable)
    {
      hide Store, Judge, Value;
      if ch == QUESTION && !chksumFlag && !lengthFlag {
        AnswerPrompt(writable);
        return;
      }
      if ch == DOLLAR && !chksumFlag && !lengthFlag {
        OpenFrame(ch);
        return;
      }
      if lengthFlag {
        TakeLength(ch);
        return;
      }
      Content(ch, writable);
    }

    method AnswerPrompt(writable: bool)
      requires Valid() && exit == Running && !chksumFlag && !lengthFlag
      modifies Footprint()
      ensures Valid()
      ensures View() ==
        Prompt(old(if startReceive then View().(phase := Payload(tempBuffer[1], [])) else View()), writable)
    {
      hide Value;
      num := 0;
      assert tempBuffer[2..2] == [];
      if !writable {
        exit := PromptLost;
        return;
      }
      tx := tx + [UPLOAD];
      questionReceived := true;
    }

    method OpenFrame(ch: byte)
      requires Valid() && exit == Running && !chksumFlag && !lengthFlag && ch == DOLLAR
      modifies Footprint()
      ensures Valid()
      ensures View() == old(if startReceive then View() else View().(phase := Length))
    {
      hide Value;
      sofData := sofData + 1;
      if sofData == 1 {
        lengthFlag := true;
      }
      tempBuffer[0] := ch;
      assert startReceive ==> tempBuffer[2..num + 2] == old(tempBuffer[2..num + 2]);
    }

    method TakeLength(ch: byte)
      requires Valid() && exit == Running && lengthFlag
      modifies Footprint()
      ensures Valid()
      ensures View() == old(View()).(phase := Payload(ch, []))
    {
      hide Value;
      lengthFlag := false;
      length := Value(ch);
      tempBuffer[1] := ch;
      startReceive := true;
      num := 0;
      assert tempBuffer[2..num + 2] == [];
    }

    /** A byte that neither prompts, opens a frame nor gives a length. */
    method Content(ch: byte, writable: bool)
      requires Valid() && exit == Running
      requires !lengthFlag && (!chksumFlag ==> ch != QUESTION && ch != DOLLAR)
      modifies Footprint()
      ensures Valid()
      ensures View() == InPhase(old(View()), ch, writable)
    {
      hide Store, Judge, Value;
      if ch == LETTER_E && !chksumFlag {
        endPacket := true;
      }
      if ch == NEWLINE || ch == RETURN {
        printChar := true;
      }
      if startReceive {
        StorePayload(ch);
        return;
      }
      if chksumFlag {
        TakeCheck(ch, writable);
      }
    }

    method StorePayload(ch: byte)
      requires Valid() && exit == Running && startReceive
      modifies Footprint()
      ensures Valid()
      ensures View() == Store(old(View()), old(tempBuffer[1]), old(tempBuffer[2..num + 2]), ch)
    {
      hide Value;
      if num + 2 >= tempBuffer.Length {
        exit := Fault;
        return;
      }
      tempBuffer[num + 2] := ch;
      num := num + 1;
      assert tempBuffer[2..num + 2] == old(tempBuffer[2..num + 2]) + [ch];
      if num as int == length as int - 2 {
        startReceive := false;
        chksumFlag := true;
        num := 0;
      }
    }

    method TakeCheck(ch: byte, writable: bool)
      requires Valid() && exit == Running && chksumFlag
      modifies Footprint()
      ensures Valid()
      ensures View() ==
        if old(a) == 0 then old(View()).(phase := Check(old(tempBuffer[1]), old(tempBuffer[2..length]), Some(ch)))
        else Judge(old(View()), Frame(old(tempBuffer[1]), old(tempBuffer[2..length]), old(chkSum[0]), ch), writable)
    {
      hide Judge, Value;
      ghost var s, f := View(), Frame(tempBuffer[1], tempBuffer[2..length], chkSum[0], ch);
      chkSum[a] := ch;
      a := a + 1;
      if a == 2 {
        chksumFlag := false;
        a := 0;
        sofData := 0;
        assert View() == s.(phase := Idle);
        Verdict(writable);
        JudgeForgetsPhase(s, f, writable);
      }
    }

    /** The frame is complete: compute its check, answer, keep or drop its payload. */
    method Verdict(writable: bool)
      requires Valid() && exit == Running
      requires !lengthFlag && !startReceive && !chksumFlag
      requires 3 <= length <= 255 && length == Value(tempBuffer[1]) && tempBuffer[0] == DOLLAR
      modifies Footprint()
      ensures Valid()
      ensures View() ==
        Judge(old(View()), old(Frame(tempBuffer[1], tempBuffer[2..length], chkSum[0], chkSum[1])), writable)
    {
      ghost var f := Frame(tempBuffer[1], tempBuffer[2..length], chkSum[0], chkSum[1]);
      assert tempBuffer[..length] == Covered(f.len, f.payload);
      hide Value, Grant, Refuse, Matches;
      var matched := Compare();
      if matched {
        AcceptFrame(f, writable);
      } else {
        RefuseFrame(f, writable);
      }
    }

    method AcceptFrame(ghost f: Frame, writable: bool)
      requires Valid() && exit == Running && sofData == 0 && 3 <= length <= 255
      requires f.payload == tempBuffer[2..length]
      modifies Footprint()
      ensures Valid()
      ensures View() == Grant(old(View()), f, writable)
    {
      hide Value, FrameMachine.Keep;
      if writable {
        tx := tx + [ACK];
      }
      palint := 0;
      if oldLength + (length - 2) > finalChar.Length {
        exit := Fault;
        return;
      }
      log := log + [f];
      KeepPayload();
    }

    method RefuseFrame(ghost f: Frame, writable: bool)
      requires Valid() && exit == Running && sofData == 0
      modifies Footprint()
      ensures Valid()
      ensures View() == Refuse(old(View()), f, writable)
    {
      hide Value;
      log := log + [f];
      if writable {
        tx := tx + [NACK];
      }
      Clear(300);
    }

    method KeepPayload()
      requires Valid() && exit == Running && sofData == 0
      requires 3 <= length <= 255 && oldLength + (length - 2) <= BUFFER
      modifies Footprint()
      ensures Valid()
      ensures View() == FrameMachine.Keep(old(View()), old(tempBuffer[2..length]))
    {
      hide Value, Filter;
      Accept();
      oldLength := oldLength + (length - 2);
      if !endPacket {
        if printChar {
          printChar := false;
          Flush();
          oldLength := 0;
        }
      } else {
        exit := EndOfRecord;
      }
    }

    method Compare() returns (matched: bool)
      requires tempBuffer.Length == BUFFER && chkSum.Length == 6 && length <= BUFFER
      ensures matched <==> Matches(tempBuffer[..length], chkSum[0], chkSum[1])
    {
      var crc := CalcCrc(length, tempBuffer);
      LowHigh(Checksum(tempBuffer[..length]));
      hide Checksum, Low, High, Wide, LowByte, HighByte;
      var low := LowByte(crc);
      var high := HighByte(crc);
      matched := low == chkSum[0] && high == chkSum[1];
    }

    /** Move the payload behind what is pending, and wipe the frame buffer. */
    method Accept()
      requires Valid() && 3 <= length <= 255 && sofData == 0
      requires oldLength + (length - 2) <= BUFFER
      modifies tempBuffer, finalChar
      ensures Valid()
      ensures finalChar[..oldLength + (length - 2)] == old(finalChar[..oldLength]) + old(tempBuffer[2..length])
    {
      var q := 0;
      while q < length - 2
        invariant q <= length - 2
        invariant finalChar[..oldLength + q] == old(finalChar[..oldLength]) + old(tempBuffer[2..q + 2])
        invariant forall j :: q + 2 <= j < length ==> tempBuffer[j] == old(tempBuffer[j])
      {
        finalChar[q + oldLength] := tempBuffer[q + 2];
        tempBuffer[q + 2] := 0;
        assert finalChar[q + oldLength] == old(tempBuffer[q + 2]);
        assert finalChar[..oldLength + q + 1] == finalChar[..oldLength + q] + [finalChar[q + oldLength]];
        assert old(tempBuffer[2..q + 3]) == old(tempBuffer[2..q + 2]) + [old(tempBuffer[q + 2])];
        q := q + 1;
      }
      Clear(1000);
    }

    method Clear(n: nat)
      requires n <= tempBuffer.Length
      modifies tempBuffer
      ensures forall j :: 0 <= j < n ==> tempBuffer[j] == 0
      ensures forall j :: n <= j < tempBuffer.Length ==> tempBuffer[j] == old(tempBuffer[j])
    {
      var q := 0;
      while q < n
        invariant q <= n
        invariant forall j :: 0 <= j < q ==> tempBuffer[j] == 0
        invariant forall j :: q <= j < tempBuffer.Length ==> tempBuffer[j] == old(tempBuffer[j])
      {
        tempBuffer[q] := 0;
        q := q + 1;
      }
    }

    /** Write the printable ones of the pending characters to the record files. */
    method Flush()
      requires oldLength <= finalChar.Length
      modifies this`file
      ensures file == old(file) + Filter(finalChar[..oldLength])
    {
      var x := 0;
      while x < oldLength
        invariant x <= oldLength
        invariant file == old(file) + Filter(finalChar[..x])
      {
        assert finalChar[..x + 1][..x] == finalChar[..x];
        var c := finalChar[x];
        if (c > 44 && c < 58) || (c > 64 && c < 91) || (c > 96 && c < 126)
           || c == 9 || c == NEWLINE || c == 10 || c == 46 {
          file := file + [c];
        }
        x := x + 1;
      }
    }
  }

  function LowByte(crc: bv32): byte {
    ((crc & 0x00FF) as bv8) as byte
  }

  function HighByte(crc: bv32): byte
    requires crc <= 0xFFFF
  {
    ((crc >> 8) as bv8) as byte
  }

  lemma LowHigh(crc: bv16)
    ensures Wide(crc) <= 0xFFFF && LowByte(Wide(crc)) == Low(crc) && HighByte(Wide(crc)) == High(crc)
  {
  }
}
