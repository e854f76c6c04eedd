/**
 * MCP3008 10-bit ADC driver (Hardware/src/Mcp3008.cpp, Mcp3008.hpp).
 *
 * The POSIX calls `open`, `write`, `read` and `close` are not executed: the driver talks to a
 * `Posix` object that records every call it receives, and the answers the kernel gives to a
 * write and to the read after it are passed in as an `Exchange`.
 */
module Adc {
  import opened Wrappers
  import Text

  const MaxChannel: bv8 := 7
  const MaxValue: int := 1023
  const SpiTransferSize: nat := 3
  const StartBit: bv8 := 0x01
  const SingleEnded: bv8 := 0x80
  const ResultMask: bv16 := 0x03FF

  /** One call the driver makes into the operating system. */
  datatype PosixCall = OpenCall(path: string) | WriteCall(fd: int, bytes: seq<bv8>) | ReadCall(fd: int, count: nat) | CloseCall(fd: int)

  /** The operating system as the driver sees it: the calls it has received, oldest first. */
  class Posix {
    var calls: seq<PosixCall>

    constructor ()
      ensures calls == []
    {
      calls := [];
    }
  }

  /** What `write` returns: -1 with errno's text, or the number of bytes accepted. */
  datatype WriteReply = WriteError(reason: string) | Wrote(count: nat)

  /** What `read` returns: -1 with errno's text, or the bytes stored into the receive buffer. */
  datatype ReadReply = ReadError(reason: string) | ReadBytes(bytes: seq<bv8>)

  /** The kernel's answers to the write and the read of one `spiTransfer`. */
  datatype Exchange = Exchange(write: WriteReply, read: ReadReply)

  /** A POSIX call never reports more bytes than it was asked for. */
  predicate WithinLength(ex: Exchange, length: nat) {
    (ex.write.Wrote? ==> ex.write.count <= length) &&
    (ex.read.ReadBytes? ==> |ex.read.bytes| <= length)
  }

  /** The exceptions the driver throws; InvalidChannel is std::invalid_argument, the rest std::runtime_error. */
  datatype AdcError =
    | OpenFailed(path: string, reason: string)
    | InvalidChannel(channel: bv8)
    | NotOpen
    | WriteFailed(reason: string)
    | WriteIncomplete(written: nat, length: nat)
    | ReadFailed(reason: string)
    | ReadIncomplete(read: nat, length: nat)
  {
    predicate IsInvalidArgument() {
      InvalidChannel?
    }

    /** The exception's what() text. */
    function Message(): string {
      match this
      case OpenFailed(path, reason) => "Failed to open SPI device '" + path + "': " + reason
      case InvalidChannel(c) => "Invalid channel " + Text.NatToString(c as nat) + " (must be 0-" + Text.NatToString(MaxChannel as nat) + ")"
      case NotOpen => "SPI device not open"
      case WriteFailed(reason) => "SPI write failed: " + reason
      case WriteIncomplete(w, n) => "SPI write incomplete: wrote " + Text.NatToString(w) + " of " + Text.NatToString(n) + " bytes"
      case ReadFailed(reason) => "SPI read failed: " + reason
      case ReadIncomplete(r, n) => "SPI read incomplete: read " + Text.NatToString(r) + " of " + Text.NatToString(n) + " bytes"
    }
  }

  /** The error `spiTransfer` raises for this exchange, or None when both directions moved `length` bytes. */
  function TransferError(ex: Exchange, length: nat): Option<AdcError> {
    match ex.write
    case WriteError(reason) => Some(WriteFailed(reason))
    case Wrote(w) =>
      if w != length then Some(WriteIncomplete(w, length))
      else match ex.read
        case ReadError(reason) => Some(ReadFailed(reason))
        case ReadBytes(bytes) => if |bytes| != length then Some(ReadIncomplete(|bytes|, length)) else None
  }

  /** The single-ended read command for a channel, as the MCP3008 datasheet frames it for 8-bit SPI transfers. */
  function RequestFrame(channel: bv8): (frame: seq<bv8>)
    requires channel <= MaxChannel
    ensures |frame| == SpiTransferSize
    ensures frame[0] == 0x01 && frame[2] == 0x00
    ensures frame[1] as int == 0x80 + 16 * channel as int
  {
    [StartBit, SingleEnded | (channel << 4), 0x00]
  }

  /** The channel a request frame selects: bits 6..4 of its second byte. */
  function SelectedChannel(frame: seq<bv8>): bv8
    requires |frame| == SpiTransferSize
  {
    (frame[1] >> 4) & 0x07
  }

  /** The 10-bit sample in a response: low 2 bits of byte 1 are bits 9..8, byte 2 is bits 7..0. */
  function DecodeResponse(rx: seq<bv8>): (value: int)
    requires |rx| == SpiTransferSize
    ensures value == (rx[1] as int % 4) * 256 + rx[2] as int
    ensures 0 <= value <= MaxValue
  {
    DecodeBytes(rx[1], rx[2]);
    ((((rx[1] as bv16 & 0x03) << 8) | rx[2] as bv16) & ResultMask) as int
  }

  /** The bit-level decoding of bytes 1 and 2 is the arithmetic high * 256 + low. */
  lemma DecodeBytes(b1: bv8, b2: bv8)
    ensures ((((b1 as bv16 & 0x03) << 8) | b2 as bv16) & ResultMask) as int == (b1 as int % 4) * 256 + b2 as int
  {
    var high: bv16 := b1 as bv16 & 0x03;
    var low: bv16 := b2 as bv16;
    var combined: bv16 := (high << 8) | low;
    LowBitsAsInt(b1);
    WidenByte(b2);
    CombineBytes(high, low);
    MaskKeeps(combined);
    assert combined as int == (b1 as int % 4) * 256 + b2 as int;
  }

  lemma LowBitsAsInt(b: bv8)
    ensures (b as bv16 & 0x03) as int == b as int % 4
  {
  }

  lemma WidenByte(b: bv8)
    ensures b as bv16 <= 255 && (b as bv16) as int == b as int
  {
  }

  lemma CombineBytes(high: bv16, low: bv16)
    requires high <= 3 && low <= 255
    ensures ((high << 8) | low) as int == high as int * 256 + low as int
    ensures (high << 8) | low <= 1023
  {
  }

  lemma MaskKeeps(x: bv16)
    requires x <= 1023
    ensures x & ResultMask == x
  {
  }

  lemma RequestSelectsChannel(channel: bv8)
    requires channel <= MaxChannel
    ensures SelectedChannel(RequestFrame(channel)) == channel
    ensures RequestFrame(channel)[1] & 0x80 == 0x80
  {
  }

  /** Whatever the converter drives in the leading byte and above bit 1 of byte 1, the sample bits 9..8 (`high`) and 7..0 (`low`) decode to high * 256 + low. */
  lemma DecodeRecoversSample(lead: bv8, junk: bv8, high: bv8, low: bv8)
    requires high <= 3
    ensures DecodeResponse([lead, (junk << 2) | high, low]) == high as int * 256 + low as int
  {
    assert ((junk << 2) | high) & 0x03 == high;
    LowBitsOfByte((junk << 2) | high);
  }

  lemma LowBitsOfByte(b: bv8)
    ensures (b & 0x03) as int == b as int % 4
  {
  }

  /** The line-up of the two bytes that decoding ignores: the leading byte and the upper six bits of byte 1. */
  lemma DecodeIgnoresUnusedBits(rx: seq<bv8>, other: seq<bv8>)
    requires |rx| == |other| == SpiTransferSize
    requires rx[1] & 0x03 == other[1] & 0x03 && rx[2] == other[2]
    ensures DecodeResponse(rx) == DecodeResponse(other)
  {
    assert rx[1] as int % 4 == (rx[1] & 0x03) as int;
    assert other[1] as int % 4 == (other[1] & 0x03) as int;
  }

  class Mcp3008 {
    var fd: int
    var devicePath: string
    const os: Posix

    constructor Init(os: Posix, path: string, fd: int)
      ensures this.os == os && this.fd == fd && devicePath == path
    {
      this.os := os;
      this.fd := fd;
      devicePath := path;
    }

    /** The constructor: open(path, O_RDWR), which answers `openedFd`; a negative answer throws. */
    static method Open(os: Posix, path: string, openedFd: int, reason: string) returns (r: Result<Mcp3008, AdcError>)
      modifies os
      ensures os.calls == old(os.calls) + [OpenCall(path)]
      ensures openedFd < 0 <==> r.Err?
      ensures r.Err? ==> r.error == OpenFailed(path, reason)
      ensures r.Ok? ==> fresh(r.value) && r.value.os == os && r.value.fd == openedFd && r.value.devicePath == path
    {
      os.calls := os.calls + [OpenCall(path)];
      if openedFd < 0 {
        return Err(OpenFailed(path, reason));
      }
      var adc := new Mcp3008.Init(os, path, openedFd);
      return Ok(adc);
    }

    /** Open exactly while a descriptor is held; the destructor and the moves leave -1 behind. */
    predicate IsOpen()
      reads this
      ensures IsOpen() <==> fd >= 0
      ensures fd == -1 ==> !IsOpen()
    {
      fd >= 0
    }

    /** The destructor: closes the descriptor only when one is held. */
    method Destroy()
      modifies this, os
      ensures !IsOpen()
      ensures os.calls == old(os.calls) + (if old(fd) >= 0 then [CloseCall(old(fd))] else [])
      ensures devicePath == old(devicePath)
    {
      if fd >= 0 {
        os.calls := os.calls + [CloseCall(fd)];
        fd := -1;
      }
    }

    /** The move constructor: takes over the descriptor and leaves the source closed. */
    constructor MoveFrom(other: Mcp3008)
      modifies other
      ensures os == other.os && fd == old(other.fd) && devicePath == old(other.devicePath)
      ensures other.fd == -1 && !other.IsOpen()
    {
      os := other.os;
      fd := other.fd;
      devicePath := other.devicePath;
      other.fd := -1;
    }

    /** Move assignment: closes its own open descriptor first; self-assignment changes nothing. */
    method MoveAssign(other: Mcp3008)
      requires other.os == os
      modifies this, other, os
      ensures other == this ==> fd == old(fd) && devicePath == old(devicePath) && os.calls == old(os.calls)
      ensures other != this ==> fd == old(other.fd) && devicePath == old(other.devicePath) && other.fd == -1
      ensures other != this ==> os.calls == old(os.calls) + (if old(fd) >= 0 then [CloseCall(old(fd))] else [])
    {
      if other != this {
        if fd >= 0 {
          os.calls := os.calls + [CloseCall(fd)];
        }
        fd := other.fd;
        devicePath := other.devicePath;
        other.fd := -1;
      }
    }

    /** One full write of `length` bytes from txBuf, then one full read into rxBuf; any short or failed call throws. */
    method SpiTransfer(txBuf: array<bv8>, rxBuf: array<bv8>, length: nat, ex: Exchange) returns (err: Option<AdcError>)
      requires length <= txBuf.Length && length <= rxBuf.Length
      requires WithinLength(ex, length)
      modifies os, rxBuf
      ensures err == TransferError(ex, length)
      ensures ex.write != Wrote(length) ==> os.calls == old(os.calls) + [WriteCall(fd, old(txBuf[..length]))]
      ensures ex.write == Wrote(length) ==> os.calls == old(os.calls) + [WriteCall(fd, old(txBuf[..length])), ReadCall(fd, length)]
      ensures err.None? ==> rxBuf[..length] == ex.read.bytes
      ensures ex.write != Wrote(length) ==> rxBuf[..] == old(rxBuf[..])
    {
      os.calls := os.calls + [WriteCall(fd, txBuf[..length])];
      match ex.write {
        case WriteError(reason) =>
          return Some(WriteFailed(reason));
        case Wrote(w) =>
          if w != length {
            return Some(WriteIncomplete(w, length));
          }
      }
      os.calls := os.calls + [ReadCall(fd, length)];
      match ex.read {
        case ReadError(reason) =>
          return Some(ReadFailed(reason));
        case ReadBytes(bytes) =>
          for i := 0 to |bytes|
            invariant forall k :: 0 <= k < i ==> rxBuf[k] == bytes[k]
            invariant os.calls == old(os.calls) + [WriteCall(fd, old(txBuf[..length])), ReadCall(fd, length)]
          {
            rxBuf[i] := bytes[i];
          }
          if |bytes| != length {
            return Some(ReadIncomplete(|bytes|, length));
          }
          assert rxBuf[..length] == bytes;
          return None;
      }
    }

    /** readChannel: validate, build the request, exchange three bytes, decode and mask the result. */
    method ReadChannel(channel: bv8, ex: Exchange) returns (r: Result<int, AdcError>)
      requires WithinLength(ex, SpiTransferSize)
      modifies os
      ensures channel > MaxChannel ==> r == Err(InvalidChannel(channel)) && os.calls == old(os.calls)
      ensures channel <= MaxChannel && fd < 0 ==> r == Err(NotOpen) && os.calls == old(os.calls)
      ensures channel <= MaxChannel && fd >= 0 ==>
        && os.calls == old(os.calls) + [WriteCall(fd, RequestFrame(channel))] + (if ex.write == Wrote(SpiTransferSize) then [ReadCall(fd, SpiTransferSize)] else [])
        && (TransferError(ex, SpiTransferSize).Some? ==> r == Err(TransferError(ex, SpiTransferSize).value))
        && (TransferError(ex, SpiTransferSize).None? ==> r == Ok(DecodeResponse(ex.read.bytes)))
      ensures r.Ok? ==> 0 <= r.value <= MaxValue
    {
      if channel > MaxChannel {
        return Err(InvalidChannel(channel));
      }
      if fd < 0 {
        return Err(NotOpen);
      }
      var txBuf := new bv8[SpiTransferSize];
      txBuf[0], txBuf[1], txBuf[2] := StartBit, SingleEnded | (channel << 4), 0x00;
      var rxBuf := new bv8[SpiTransferSize](_ => 0);
      assert txBuf[..SpiTransferSize] == RequestFrame(channel);
      var err := SpiTransfer(txBuf, rxBuf, SpiTransferSize, ex);
      if err.Some? {
        return Err(err.value);
      }
      return Ok(DecodeResponse(rxBuf[..]));
    }
  }
}
