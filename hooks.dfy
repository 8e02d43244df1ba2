/** The host callbacks the benchmark hands to the emulation core.
    The core is opaque and calls these hooks unconditionally while it runs,
    so every hook is total: cartridge reads are bounds-checked against the
    loaded image, and every other hook answers a fixed "absent / not pressed"
    value so that a run does not depend on input, disc or save data. */
module Hooks {

  /** An unsigned char of the loaded ROM image (cc_u8f result). */
  type Byte = b: int | 0 <= b < 0x100

  /** A cartridge bus address (cc_u32f). */
  type Address = a: int | 0 <= a < 0x1_0000_0000

  /** The image as loaded: a buffer of exactly rom_size bytes. */
  type Rom = seq<Byte>

  /** Serves one byte of the cartridge: the image byte when the address lies
      inside the image, and 0 past its end; it never indexes outside it. */
  function CartridgeRead(rom: Rom, address: Address): (r: Byte)
    ensures address < |rom| ==> r == rom[address]
    ensures |rom| <= address ==> r == 0
  {
    if address < |rom| then rom[address] else 0
  }

  /** `n` zero bytes. */
  function Zeros(n: nat): (z: Rom)
    ensures |z| == n && forall i :: 0 <= i < n ==> z[i] == 0
  {
    seq(n, _ => 0)
  }

  /** Reading past the end of the image is indistinguishable from reading an
      image that was padded with zero bytes: the core cannot tell the two apart. */
  lemma CartridgeReadZeroPadded(rom: Rom, padding: nat, address: Address)
    ensures CartridgeRead(rom, address) == CartridgeRead(rom + Zeros(padding), address)
  {
  }

  /** Reading every address of the image in turn yields the image itself. */
  lemma CartridgeReadRecoversImage(rom: Rom)
    requires |rom| <= 0x1_0000_0000
    ensures seq(|rom|, i requires 0 <= i < |rom| => CartridgeRead(rom, i)) == rom
  {
  }

  /** Controller polling: no button is ever reported as held. */
  function InputRequested(playerId: nat, buttonId: nat): (pressed: bool)
    ensures !pressed
  {
    false
  }

  /** Optical disc: seeking to a CD-DA track always fails. */
  function CDSeekTrack(trackIndex: nat, mode: nat): (found: bool)
    ensures !found
  {
    false
  }

  /** Optical disc: asked for `totalFrames` frames of CD audio, the host
      supplies none and leaves the core's buffer untouched. */
  function CDAudioRead(totalFrames: nat): (framesRead: nat)
    ensures framesRead <= totalFrames
    ensures framesRead == 0
  {
    0
  }

  /** Save data: no save file can be opened for reading. */
  function SaveFileOpenedForReading(filename: string): (isOpen: bool)
    ensures !isOpen
  {
    false
  }

  /** Save data: a read from the (never opened) save file yields 0. */
  function SaveFileRead(): (value: int)
    ensures value == 0
  {
    0
  }

  /** Save data: no save file can be opened for writing. */
  function SaveFileOpenedForWriting(filename: string): (isOpen: bool)
    ensures !isOpen
  {
    false
  }

  /** Save data: removing a save file always fails. */
  function SaveFileRemoved(filename: string): (removed: bool)
    ensures !removed
  {
    false
  }

  /** Save data: the size of a save file is never obtained, and the size
      out-parameter is never written. */
  function SaveFileSizeObtained(filename: string): (obtained: bool)
    ensures !obtained
  {
    false
  }

  /** Each value-returning hook other than the cartridge read gives the same
      answer whatever arguments it is called with. */
  lemma HostAnswersIgnoreArguments(
    player1: nat, button1: nat, player2: nat, button2: nat,
    track1: nat, mode1: nat, track2: nat, mode2: nat,
    frames1: nat, frames2: nat, file1: string, file2: string)
    ensures InputRequested(player1, button1) == InputRequested(player2, button2)
    ensures CDSeekTrack(track1, mode1) == CDSeekTrack(track2, mode2)
    ensures CDAudioRead(frames1) == CDAudioRead(frames2)
    ensures SaveFileOpenedForReading(file1) == SaveFileOpenedForReading(file2)
    ensures SaveFileOpenedForWriting(file1) == SaveFileOpenedForWriting(file2)
    ensures SaveFileRemoved(file1) == SaveFileRemoved(file2)
    ensures SaveFileSizeObtained(file1) == SaveFileSizeObtained(file2)
  {
  }
}
