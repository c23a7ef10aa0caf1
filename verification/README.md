# covnes in Dafny

A model of the emulation engine of covnes, a NES emulator written in
Rust, together with proofs about it. Every component is a set of
immutable datatypes and pure functions. Nothing in the model performs I/O.
A component's effects on the rest of the console are returned as
values:
- bus accesses, host writes, NMI changes and pixels;
- aborts (`panic!`, `unimplemented!`, a failed `assert!`), returned as
  `Panic`;
- parse errors, returned as `Err`.

What is modelled:

- **The cycle-accurate 6502** (covnes/src/cpu.rs) lives in modules `Cpu6502`,
  `Alu`, `CpuCycles`, `CpuSteps`, `CpuTrace`, `CpuProps` and `CpuProgress`.
  One call of `Cpu6502.Cycle` is one CPU clock. The pipeline state alone
  fixes the cycle's one bus access, and the byte read decides what follows.
  Traces against a flat 64K memory state the exact bus events of every
  addressing tail, branch, stack instruction and interrupt sequence.
- **The PPU** (covnes/src/nes/ppu.rs) lives in modules `Ppu`, `PpuScroll`,
  `PpuRender`, `PpuSprites` and `PpuTick`. It covers the registers
  $2000-$2007, the loopy `v`/`t`/`x`/`w` scroll registers, palette RAM,
  background and sprite pipelines, sprite evaluation, pixel priority, the
  VBLANK/NMI timing and the dot counters with the odd-frame skip.
- **The cartridge mappers** live in modules `MapperCommon`, `Nrom`,
  `UxRom`, `SxRom` and `Cartridges`:
  - nametable mirroring (covnes/src/nes/mappers/common.rs);
  - NROM, UxROM and SxROM/MMC1, with MMC1's serial shift register;
  - mapper selection and forwarding (mappers/mod.rs).
- **The console** (covnes/src/nes/mod.rs, modules `Nes` and `NesProps`):
  the CPU address decoder and the T1/T2/T3 master clock. It also uses
  OAM DMA (covnes/src/nes/dma.rs, module `Dma`) and the standard
  controller (covnes/src/nes/io.rs, module `Controller`).
- **The parsers**:
  - the iNES header (covnes/src/romfiles.rs, `RomFiles`);
  - the FCEUX FM2 movie format (covnes/src/fm2_movie_file.rs, `Fm2Text`
    and `Fm2`).
- **The earlier prototypes**, as separate modules:
  - the first CPU (src/cpu.rs: `ProtoCpu`, `ProtoCpuProps`,
    `ProtoTrace`, `ProtoProgress`);
  - its iNES reader, cartridge and bus (src/roms.rs, src/cartridges.rs,
    src/system.rs: `ProtoRoms`, `ProtoCartridge`, `ProtoBus`,
    `ProtoSystem`);
  - the older background-only PPU (covnes/src/ppu.rs, `OldPpu`);
  - the older console (covnes/src/system.rs, `OldSystem` and
    `OldSystemProps`).

The older NROM (covnes/src/mappers/nrom.rs) behaves as the current NROM
statement by statement, so module `Nrom` models both. Its Rust types differ:
it returns a boxed cartridge and keeps PRG RAM in a `Cell` behind a helper.
Its nametable helper comes from the older `crate::mappers::common`, which is
not part of this model and is taken to be the current `get_vram_cell`. The table cites whichever file states
each property.

Conventions:
- Registers are `bv8`/`bv16`, so Rust's `wrapping_add`/`wrapping_sub` are
  the bit-vector operations.
- Addresses the source converts with `as usize` are integers.
- A Rust `u16` expression that could overflow is written with the
  explicit remainder.
- The CPU operations that covnes/src/nes/mod.rs calls but the CPU file
  does not define are the parameters of an `Nes.Env`:
  `poll_interrupts`, `clear_nmi` and `is_write_cycle`.
- The buttons the player holds are also in `Nes.Env`.

Two details of the PPUs are modelled exactly as written, although they
differ from the hardware:
- On the console all three status flags clear at dot 1 of the pre-render
  line. The current PPU clears sprite overflow one dot earlier, at dot 0,
  and VBLANK and sprite-0 hit at dot 1 (covnes/src/nes/ppu.rs:596-607).
  `PpuTick` models exactly that.
- The older PPU does not mirror $3F10/$3F14/$3F18/$3F1C onto $3F00-$3F0C.
  The current PPU does.

Defects the proofs exposed in the code are listed under Findings. For
each, the code as written is kept in its own member, next to a lemma
that exhibits the defect on a named input. The corrected member sits
beside it, with the intended property proved. The CPU, PPU, mapper and
console steps run the corrected member. "## Left out" names each step
that runs a corrected member in place of the code as written. The FM2
parser and the prototype ROM loader exist twice, once as written and
once corrected.

## Model

| member | source | states |
|---|---|---|
| AluProps.PackUnpack | covnes/src/cpu.rs:3-12 | The status byte holds exactly the six flags: unpacking a packed flag set gives it back, and packing an unpacked byte clears bits 4 and 5 (`from_bits_truncate`). |
| AluProps.AdcAdds | covnes/src/cpu.rs:1136-1146 | ADC sets A to A + M + C modulo 256, C iff the full sum exceeds 255, V iff A and M agree in sign and the result does not, and Z/N from the result. |
| AluProps.SbcSubtracts | covnes/src/cpu.rs:1196-1198 | SBC (ADC of the complement) sets A to A - M - (1 - C) modulo 256, C iff no borrow (A >= M + 1 - C), and V on signed overflow of the subtraction. |
| AluProps.CompareOps | covnes/src/cpu.rs:1159-1173 | CMP, CPX and CPY compare A, X and Y with the operand. |
| AluProps.CompareSpec | covnes/src/cpu.rs:1159-1173 | A compare leaves every register but the flags alone; C iff register >= operand, Z iff equal, N is bit 7 of the wrapped difference. |
| AluProps.RotateRoundTrip | covnes/src/cpu.rs:1259-1276 | ROL then ROR (and ROR then ROL) through the carry restores both the operand and the carry. |
| AluProps.IncDecInverse | covnes/src/cpu.rs:1241-1251 | INC and DEC undo each other on the memory operand, with wrap-around. |
| AluProps.BranchPairs | covnes/src/cpu.rs:1329-1340 | The eight branch conditions are four complementary pairs on C, Z, N and V. |
| CpuCycles.FetchNmi | covnes/src/cpu.rs:326-335 | An asserted NMI replaces the opcode fetch: no bus access, the NMI sequence starts, the NMI line is cleared, PC and registers are kept. |
| CpuCycles.FetchIrq | covnes/src/cpu.rs:326-339 | Without an NMI, an asserted unmasked IRQ replaces the fetch with no access, and the NMI line is cleared too. |
| CpuCycles.FetchDropsMaskedIrq | covnes/src/cpu.rs:327-329 | With I set, the fetch reads at PC and the IRQ line ends cleared whatever its stage. |
| CpuCycles.FetchDecodes | covnes/src/cpu.rs:340-641 | Without an interrupt the fetch reads at PC; the CPU stops exactly on an opcode `Decode` rejects; otherwise PC steps by one, the opcode's first state follows, and the NMI line is the end-of-cycle promotion of the line after the access. |
| CpuCycles.ZeroPageXCycle | covnes/src/cpu.rs:658-666 | zp,X reads the operand byte, then the un-indexed address (dummy read), then works on the low byte of base + X. |
| CpuCycles.ZeroPageYCycle | covnes/src/cpu.rs:667-675 | The same for zp,Y. |
| CpuCycles.OperandKeepsRegs | covnes/src/cpu.rs:651-734 | Operand fetches step PC past the operand bytes and leave the registers alone. |
| CpuCycles.AddressingKeepsPcAndRegs | covnes/src/cpu.rs:676-679 | The effective-address cycles move neither PC nor the registers. |
| CpuCycles.AbsoluteXCycle | covnes/src/cpu.rs:719-726 | abs,X adds the low operand byte to X in 16 bits and keeps the carry into the high byte. |
| CpuCycles.AbsoluteYCycle | covnes/src/cpu.rs:727-734 | The same for abs,Y. |
| CpuCycles.AddLowHighReadCarry | covnes/src/cpu.rs:742-762 | A read whose index carried next reads at the un-carried address, then at the address one page up. A step of `CpuProps.IndexedReadCrossesPage`. |
| CpuCycles.AddLowHighReadNoCarry | covnes/src/cpu.rs:742-762 | A read without a carry goes straight to its operand. A step of `CpuProps.IndexedReadSamePage`. |
| CpuCycles.AddLowHighWriteCarry | covnes/src/cpu.rs:742-762 | A write always takes the dummy read at the un-carried address, then writes at the carried one. A step of `CpuProps.IndexedWriteCrossesPage`. |
| CpuCycles.AddLowHighReadWriteCarry | covnes/src/cpu.rs:742-762 | A read-modify-write always takes the dummy read too. |
| CpuCycles.ExecuteReadWriteCycle | covnes/src/cpu.rs:686-691 | The read of a read-modify-write computes the new value and the new flags in that cycle. A step of `CpuProps.ReadModifyWrite`. |
| CpuCycles.IndexedIndirect3Cycle | covnes/src/cpu.rs:770-779 | (zp,X) reads its pointer at the low bytes of base + X and base + X + 1: the pointer never leaves the zero page. |
| CpuCycles.IndirectIndexed2Cycle | covnes/src/cpu.rs:787-791 | (zp),Y reads the high pointer byte at the low byte of base + 1 and adds Y to the low byte in 16 bits. |
| CpuCycles.JmpIndirectHighByte | covnes/src/cpu.rs:1106-1116 | JMP (ind) takes the target's high byte from the pointer's own page: JMP ($xxFF) reads $xx00. |
| CpuCycles.BranchTargetAddsSigned | covnes/src/cpu.rs:809-817 | A taken branch lands at the address after the operand plus the sign-extended offset, modulo 64K. |
| CpuCycles.BranchFixupStaysInPage | covnes/src/cpu.rs:819-823 | Corrected dummy read of a page-crossing branch: the target's low byte in the old page, which is the old low byte plus the offset. |
| CpuCycles.BranchFixupAsWrittenMisses | covnes/src/cpu.rs:819-823 | As written, the offset is added a second time: from $10F0 by +$20 the dummy read is at $1030, not $1010. |
| CpuCycles.IntBrkCycle | covnes/src/cpu.rs:842-850 | BRK's first sequence cycle steps PC over the padding byte and reads there. A step of `CpuProps.BrkSequence`. |
| CpuCycles.PushPcLowCycle | covnes/src/cpu.rs:865-887 | Without hijacking, the third cycle pushes PCL at 0x100 \| S and keeps the interrupt; only BRK carries the B bit on. A step of `CpuProps.BrkSequence`, `CpuProps.NmiSequence` and `CpuProps.IrqSequence`. |
| CpuCycles.Int3Hijack | covnes/src/cpu.rs:878-887 | An NMI visible at the end of the PCL push takes over a BRK or an IRQ, an IRQ takes over a BRK, and a hijacked BRK still pushes B set. |
| CpuCycles.PushStatusCycle | covnes/src/cpu.rs:889-905 | The status pushed by an interrupt has bit 5 set and bit 4 set exactly when the B flag is. A step of `CpuProps.BrkSequence`, `CpuProps.NmiSequence` and `CpuProps.IrqSequence`. |
| CpuCycles.ResetStackHighCycle | covnes/src/cpu.rs:851-863 | Reset reads the stack where an interrupt would write, and S still moves down. A step of `CpuProps.ResetSequence`. |
| CpuCycles.VectorLowCycle | covnes/src/cpu.rs:906-915 | The low vector byte is read at the interrupt's vector and I is set. A step of the BRK, NMI, IRQ and reset sequences (`CpuProps.BrkSequence` … `CpuProps.ResetSequence`). |
| CpuCycles.PlpCycle | covnes/src/cpu.rs:1013-1021 | PLP pre-increments S and takes the flags from the byte at 0x100 \| S, bits 4 and 5 dropped. A step of `CpuProps.PlpTrace`. |
| CpuProps.IndexedReadCrossesPage | covnes/src/cpu.rs:742-762 | An indexed read whose index carries: the high operand byte, a dummy read at the un-carried address, then the read one page up; the trace and the registers after it. |
| CpuProps.IndexedReadSamePage | covnes/src/cpu.rs:742-762 | An indexed read within the page: the high byte, then the read itself, with no dummy cycle. |
| CpuProps.IndexedWriteCrossesPage | covnes/src/cpu.rs:742-762 | An indexed write that carries: the dummy read at the un-carried address, then the write one page up. |
| CpuProps.IndexedWriteSamePage | covnes/src/cpu.rs:742-762 | An indexed write within the page still spends the dummy read, at the very address it then writes. |
| CpuProps.ReadModifyWrite | covnes/src/cpu.rs:686-711 | A read-modify-write performs one read, writes the original value back, then writes the new value: exactly two writes, both at the address. |
| CpuProps.ReadModifyWriteStores | covnes/src/cpu.rs:686-711 | After a read-modify-write memory holds the new value at the address and is unchanged elsewhere. |
| CpuProps.BranchNotTaken | covnes/src/cpu.rs:798-808 | A branch not taken costs one cycle after its opcode (the offset read) and leaves PC after the operand. |
| CpuProps.BranchTakenSamePage | covnes/src/cpu.rs:809-826 | A taken branch within the page costs one idle cycle more and lands at PC + sign-extended offset. |
| CpuProps.BranchTakenCrossPage | covnes/src/cpu.rs:809-831 | A taken branch into another page costs a further cycle, a dummy read in the old page. |
| CpuProps.PushPullFlags | covnes/src/cpu.rs:998-1021 | Whatever PHP, BRK, NMI or IRQ pushes, PLP and RTI turn back into exactly the flags pushed. |
| CpuProps.PulledFlagsDropBits | covnes/src/cpu.rs:937-946 | A pulled status never retains bits 4 and 5. |
| CpuProps.PhpTrace | covnes/src/cpu.rs:998-1006 | PHP: an idle cycle, then P \| 0x30 written at 0x100 \| S, and S decremented. |
| CpuProps.PhaTrace | covnes/src/cpu.rs:999-1006 | PHA: an idle cycle, then A written at 0x100 \| S, and S decremented. |
| CpuProps.PlpTrace | covnes/src/cpu.rs:1007-1021 | PLP: an idle cycle, a dummy read at 0x100 \| S, then the flags read from 0x100 \| (S + 1); memory untouched. |
| CpuProps.PlaTrace | covnes/src/cpu.rs:1022-1037 | PLA: an idle cycle, a dummy read, then A from 0x100 \| (S + 1) with Z and N from it. |
| CpuProps.PhpPlpRoundTrip | covnes/src/cpu.rs:998-1021 | PHP followed by PLP restores the flags. |
| CpuProps.PhaPlaRoundTrip | covnes/src/cpu.rs:999-1037 | PHA followed by PLA restores A. |
| CpuProps.JsrTrace | covnes/src/cpu.rs:1038-1075 | JSR: the low target byte, a dummy stack read, the address of its own last byte pushed high byte first, then the high target byte. |
| CpuProps.RtsTrace | covnes/src/cpu.rs:964-997 | RTS: an idle cycle, a dummy stack read, the return address pulled low byte first, a dummy read at it, and PC one past it. |
| CpuProps.JsrRtsRoundTrip | covnes/src/cpu.rs:964-1075 | JSR and RTS are inverse on the stack: RTS returns one past the address JSR pushed and restores S. |
| CpuProps.BrkSequence | covnes/src/cpu.rs:842-927 | BRK: the padding byte is read and skipped, PC and the status with bits 4 and 5 set are pushed at 0x100 \| S downwards, I is set and PC is loaded from $FFFE/$FFFF. |
| CpuProps.NmiSequence | covnes/src/cpu.rs:842-927 | NMI: a dummy read at PC, the pushes of PC and of the status with bit 4 clear, I set, and the vector at $FFFA. |
| CpuProps.IrqSequence | covnes/src/cpu.rs:842-927 | IRQ: as NMI, through the vector at $FFFE. |
| CpuProps.ResetSequence | covnes/src/cpu.rs:837-927 | Reset: reads where the pushes would write (S still drops by three), I set, and the vector at $FFFC. |
| CpuProgress.CycleProgresses | covnes/src/cpu.rs:642-1117 | Every cycle inside an instruction or interrupt sequence strictly decreases the distance to the next opcode fetch, which is at most seven. |
| Ppu.Reset | covnes/src/nes/ppu.rs:181-190 | Reset zeroes PPUCTRL, PPUMASK, the dot and scanline counters and the frame parity, and nothing else of the PPU changes. |
| Ppu.RenderingScanlines | covnes/src/nes/ppu.rs:201-203 | The corrected rendering-line test holds exactly off lines 240-260: the visible lines and the pre-render line. |
| Ppu.RenderingScanlineAsWrittenMissesPreRender | covnes/src/nes/ppu.rs:201-203 | As written (`== 321`) the test holds only on the visible lines, so on line 261 it differs from the corrected one. |
| Ppu.PaletteRoundTrip | covnes/src/nes/ppu.rs:372-410 | A palette write is read back at every address of the same palette entry, through the greyscale mask. `Ppu.Read` and `Ppu.Write` send everything below $3F00 (modulo $4000) to the host. |
| Ppu.PaletteWriteLocal | covnes/src/nes/ppu.rs:389-410 | A palette write changes no other palette entry. |
| Ppu.PaletteAliases | covnes/src/nes/ppu.rs:400-410 | $3F10/$3F14/$3F18/$3F1C are the cells of $3F00/$3F04/$3F08/$3F0C, for reads and for writes. |
| Ppu.VramIncrement | covnes/src/nes/ppu.rs:306-310 | The $2007 increment is 1 or 32, and 32 exactly when PPUCTRL bit 2 is set. |
| Ppu.CtrlEffects | covnes/src/nes/ppu.rs:225-246 | A $2000 write triggers an NMI exactly when it turns NMI on during VBLANK outside dot 1 of line 261, suppresses one exactly when it turns NMI off on dots 2-3 of line 241, and does at most one of the two. |
| Ppu.CtrlNmiEffectsExclusive | covnes/src/nes/ppu.rs:230-246 | The trigger and the suppression of a $2000 write never both happen. |
| Ppu.CtrlWriteFields | covnes/src/nes/ppu.rs:225-251 | Through the register port a $2000 write (`Ppu.WriteCtrl`) replaces PPUCTRL and sets the nametable select of `t` from the value's bits 0-1 while coarse X, coarse Y and fine Y of `t` stay; `v`, fine X, the toggle, OAM and the status stay; its NMI effects are exactly those of `Ppu.CtrlEffects`. |
| Ppu.OamWriteCell | covnes/src/nes/ppu.rs:256-262 | A $2004 write (`Ppu.WriteOamData`) while rendering on lines 0-239 and 261 leaves OAM and OAMADDR alone (corrected: covnes writes on line 261); otherwise exactly the OAM cell at OAMADDR takes the value, every other cell stays, and OAMADDR moves on by one, from 255 back to 0. |
| Ppu.ScrollPair | covnes/src/nes/ppu.rs:263-283 | Two $2005 writes from a clear toggle set coarse X and fine X from the first value, coarse Y and fine Y from the second, keep the nametable select and `v`, and leave the toggle clear. |
| Ppu.AddrPair | covnes/src/nes/ppu.rs:284-303 | Two $2006 writes from a clear toggle load both `v` and `t` with the first value's low six bits over the second value, and leave the toggle clear. |
| Ppu.StatusReadResetsToggle | covnes/src/nes/ppu.rs:320-330 | After a $2002 read the next $2005 or $2006 write is taken as the first of a pair. The status read is `Ppu.ReadStatus`. |
| Ppu.DataPortIncrement | covnes/src/nes/ppu.rs:304-313 | Every $2007 access leaves `v` moved by the selected increment, within 15 bits; a read first reduces `v` to 14 bits. A $2007 write (`Ppu.WriteData`) is the palette or host write at `v`. |
| Ppu.OamAttributeMask | covnes/src/nes/ppu.rs:331-342 | A $2004 read at byte 2 of a sprite drops bits 2-4; any other byte reads as stored. The $2004 read is `Ppu.ReadOamData`. |
| Ppu.OamWriteRead | covnes/src/nes/ppu.rs:256-262 | With rendering off, a $2004 write followed by resetting OAMADDR reads back the value written (attribute bits 2-4 excepted). |
| PpuScroll.FieldsDetermine | covnes/src/nes/ppu.rs:771-836 | Coarse X, coarse Y, the two nametable bits and fine Y together determine a 15-bit VRAM address. |
| PpuScroll.HScroll | covnes/src/nes/ppu.rs:772-786 | With rendering on, coarse X moves on by one, and after column 31 wraps to 0 in the other horizontal nametable; the vertical fields are kept; with rendering off `v` is unchanged. |
| PpuScroll.VScrollFine | covnes/src/nes/ppu.rs:788-798 | Within a tile row the Y increment moves only fine Y. |
| PpuScroll.VScrollKeepsColumn | covnes/src/nes/ppu.rs:788-813 | The Y increment keeps coarse X and the horizontal nametable bit, and stays within 15 bits. |
| PpuScroll.VScrollCoarse | covnes/src/nes/ppu.rs:798-809 | After fine Y 7: fine Y restarts, row 29 wraps to 0 in the other vertical nametable, row 31 wraps to 0 in the same one, and any other row moves on by one. |
| PpuScroll.HUpdate | covnes/src/nes/ppu.rs:815-825 | hori(v) = hori(t): coarse X and the horizontal nametable come from `t`, the vertical fields stay. |
| PpuScroll.VUpdate | covnes/src/nes/ppu.rs:826-836 | vert(v) = vert(t): fine Y, coarse Y and the vertical nametable come from `t`, the horizontal fields stay. |
| PpuScroll.UpdatesCopyT | covnes/src/nes/ppu.rs:815-836 | The two copies together make `v` equal to `t`. |
| PpuScroll.NtAddr | covnes/src/nes/ppu.rs:753-756 | The nametable fetch address lies in $2000-$2FFF and keeps the tile's coarse X, coarse Y and nametable select. |
| PpuScroll.AtAddr | covnes/src/nes/ppu.rs:757-761 | The attribute fetch address is entry (coarse Y / 4) * 8 + coarse X / 4 of the attribute table at $23C0 of the same nametable. |
| PpuScroll.AttributeQuadrant | covnes/src/nes/ppu.rs:627-639 | The reduced attribute byte's low two bits are the pair the tile's 16x16 quadrant selects. |
| PpuScroll.BgAddr | covnes/src/nes/ppu.rs:762-770 | The pattern fetch address is below $2000, selects the table by PPUCTRL bit 4, holds the tile number in bits 4-11 and fine Y in bits 0-2. |
| PpuRender.BgPattern | covnes/src/nes/ppu.rs:426-428 | The background pattern's two bits are bit 15 - fine X of the high and low pattern shift registers. |
| PpuRender.BgPalette | covnes/src/nes/ppu.rs:423-446 | The background index is 0 exactly for a transparent pattern, and otherwise the pattern with the attribute bits at bit 7 - fine X above it. |
| PpuRender.Draw | covnes/src/nes/ppu.rs:418-494 | Without sprites shown, or on line 0, the background index is drawn and nothing hits; sprite 0 hits exactly when both layers show at x, x is not 255, sprite 0 is loaded and opaque there and the background is opaque. |
| PpuRender.DrawShowsFront | covnes/src/nes/ppu.rs:448-494 | With sprites shown, the drawn index is the frontmost opaque sprite's palette entry when it is in front or the background is transparent, and the background's otherwise. |
| PpuRender.FrontInRange | covnes/src/nes/ppu.rs:452-485 | The sprite layer yields nothing or an entry of the sprite palettes (16-31). |
| PpuRender.PaletteReadIsInternal | covnes/src/nes/ppu.rs:372-388 | The palette reads of the pixel stage never reach the host. |
| PpuRender.Reload | covnes/src/nes/ppu.rs:742-752 | Reloading puts the fetched pattern bytes in the low halves of the pattern registers, keeps the high halves, and latches bits 0 and 1 of the reduced attribute. |
| PpuRender.EightShiftsRaiseReload | covnes/src/nes/ppu.rs:499-505 | Eight shifts after a reload the fetched pattern bytes are in the high halves, where the pixel stage reads. |
| PpuSprites.SpriteSize | covnes/src/nes/ppu.rs:734-740 | Sprites are 8 or 16 rows high, 16 exactly with PPUCTRL bit 5. |
| PpuSprites.CompareWhenDone | covnes/src/nes/ppu.rs:864-868 | Once evaluation is done a compare only moves OAMADDR on by one sprite. |
| PpuSprites.CompareOverflow | covnes/src/nes/ppu.rs:912-926 | Overflow is raised exactly when secondary OAM is full and the compared sprite covers the line, and it ends evaluation. |
| PpuSprites.CompareSecondary | covnes/src/nes/ppu.rs:882-884 | Secondary OAM changes only at its next free byte, which takes the latched byte whenever evaluation runs and there is room. |
| PpuSprites.CompareZeroAndDone | covnes/src/nes/ppu.rs:878-880 | Dot 66 records whether sprite 0 covers the next line; once done, evaluation stays done. |
| PpuSprites.CompareSkipsSprite | covnes/src/nes/ppu.rs:903-911 | A non-covering sprite met with room costs one compare: n moves on (wrapping, ending evaluation at 0) and m is kept. |
| PpuSprites.CompareCopiesSprite | covnes/src/nes/ppu.rs:885-902 | A covering sprite met with room is copied byte by byte, and after its fourth byte the next sprite starts. |
| PpuSprites.EvaluateDot | covnes/src/nes/ppu.rs:837-856 | Dots 1-64 fill secondary OAM with $FF, dot 65 starts the scan at OAMADDR, odd dots latch the OAM byte, and the overflow flag is never lowered. |
| PpuSprites.SetOverflow | covnes/src/nes/ppu.rs:921-923 | The overflow flag ends raised exactly when it was or overflow was found; the other flags are kept. |
| PpuSprites.TileAddr | covnes/src/nes/ppu.rs:535-550 | 8x16 sprites take their table from bit 0 of the tile number and start at the even tile; 8x8 sprites use the table PPUCTRL bit 3 selects. |
| PpuSprites.SpriteRow | covnes/src/nes/ppu.rs:552-558 | The row drawn is below the sprite height and is the distance from the sprite's top, counted from the bottom when flipped vertically. |
| PpuSprites.WrappingRow | covnes/src/nes/ppu.rs:553-554 | The 16-bit wrapping subtraction gives the same row modulo the sprite height. |
| PpuSprites.RowAddrAsWrittenMissesRow8 | covnes/src/nes/ppu.rs:560-564 | As written (`y_offset > 8`), row 8 of an 8x16 sprite is read 8 bytes into the upper tile instead of the start of the lower one. |
| PpuSprites.RowAddr | covnes/src/nes/ppu.rs:560-564 | Corrected: rows 0-7 come from the first tile and rows 8-15 from the second, 16 bytes on. |
| PpuSprites.RowAddrAgreesElsewhere | covnes/src/nes/ppu.rs:560-564 | The code as written and the corrected address differ only on row 8. |
| PpuSprites.SpritePattern | covnes/src/nes/ppu.rs:455-465 | A sprite is transparent outside its eight columns. |
| PpuSprites.PlanePair | covnes/src/nes/ppu.rs:462-465 | The sprite pattern's two bits are bit 7 - column of the high and low planes. |
| PpuSprites.SpritePalette | covnes/src/nes/ppu.rs:479-480 | A sprite pixel selects entry 16 + 4 * (attribute palette) + pattern. |
| PpuSprites.Front | covnes/src/nes/ppu.rs:454-484 | The sprite in front is the lowest-numbered opaque one at x; there is none only when all are transparent there. |
| PpuSprites.ScanShowsFront | covnes/src/nes/ppu.rs:454-484 | The reverse loop over the loaded sprites ends with the frontmost opaque sprite's pixel, or with none. |
| PpuSprites.Priority | covnes/src/nes/ppu.rs:490-494 | The sprite shows when it is opaque and the background is transparent or the sprite is not behind; the background shows otherwise. |
| PpuTick.PreRenderFlags | covnes/src/nes/ppu.rs:596-607 | On the pre-render line dot 0 lowers overflow and dot 1 lowers VBLANK and sprite-0 hit; no other dot changes anything. |
| PpuTick.Skip | covnes/src/nes/ppu.rs:681-691 | The skip is armed on dot 338 of line 261 of an odd frame with rendering on, and an armed skip on dot 339 moves to dot 340 and disarms; otherwise the counters are untouched. |
| PpuTick.StartVblank | covnes/src/nes/ppu.rs:694-707 | Dot 1 of line 241 raises VBLANK, with an NMI exactly when PPUCTRL enables it, unless a clear is pending; nothing else changes. |
| PpuTick.ClearVblank | covnes/src/nes/ppu.rs:711-717 | A pending clear lowers VBLANK and ends; without one nothing changes. |
| PpuTick.AdvanceVisitsInOrder | covnes/src/nes/ppu.rs:719-731 | The counters visit the 341 * 262 dots of a frame in order, and the parity flips only at the wrap. |
| PpuTick.TickStartsVblank | covnes/src/nes/ppu.rs:507-731 | A tick at dot 1 of line 241 raises VBLANK and emits the NMI exactly when PPUCTRL asks; with a clear pending, VBLANK stays low and no effect is emitted. |
| PpuTick.StatusReadRace | covnes/src/nes/ppu.rs:320-330 | Reading $2002 on the dot before VBLANK starts leaves VBLANK low and raises no NMI for that frame. |
| PpuTick.TickPreRenderClears | covnes/src/nes/ppu.rs:596-607 | The pre-render line's first dots clear overflow (dot 0) and VBLANK and sprite-0 hit (dot 1). |
| PpuTick.OddFrameSkip | covnes/src/nes/ppu.rs:681-731 | On odd frames with rendering on, dot 339 of line 261 is the last of the frame: the next dot is dot 0 of line 0 with the parity flipped. |
| PpuTick.TickAdvances | covnes/src/nes/ppu.rs:507-731 | Away from the skip, each tick moves the counters one dot on in frame order. |
| PpuTick.TickClearsOamAddr | covnes/src/nes/ppu.rs:674-679 | OAMADDR is 0 after every dot 257-320 of a rendering line. |
| PpuTick.SpriteSlotFetch | covnes/src/nes/ppu.rs:515-582 | The four load and fetch dots of a slot holding a sprite set its X and attributes from secondary OAM, its low and high pattern bytes from the row address and 8 bytes on, and the sprite count to the slot number plus one. |
| OldPpu.Reset | covnes/src/ppu.rs:121-130 | The older PPU's reset zeroes PPUCTRL, PPUMASK, the counters and the parity, which leaves it at its frame end (dot 0 of line 0), and changes nothing else. |
| OldPpu.PaletteRoundTrip | covnes/src/ppu.rs:279-305 | A palette write is read back at every address with the same offset mod 32, through the greyscale mask. `OldPpu.Read` and `OldPpu.Write` send everything below $3F00 (modulo $4000) to the host. |
| OldPpu.PaletteWriteLocal | covnes/src/ppu.rs:296-305 | A palette write leaves the other 31 entries alone. |
| OldPpu.PaletteNoAliasing | covnes/src/ppu.rs:279-305 | In the older PPU $3F10/$3F14/$3F18/$3F1C are cells of their own: writing one leaves $3F00/$3F04/$3F08/$3F0C as they were. |
| OldPpu.WriteCtrl | covnes/src/ppu.rs:156-173 | $2000 replaces PPUCTRL and the nametable select of `t`, and raises an NMI exactly when it turns NMI on during VBLANK (there is no suppression). |
| OldPpu.WriteOamData | covnes/src/ppu.rs:176-180 | The older $2004 write always stores at OAMADDR, changes no other OAM byte, and advances OAMADDR with wrap-around. |
| OldPpu.ReadStatus | covnes/src/ppu.rs:238-245 | $2002 returns the three flags over the low five bits of the latch, lowers VBLANK at once, clears the toggle, and puts the value on the latch. |
| OldPpu.StatusReadTwice | covnes/src/ppu.rs:238-245 | A second $2002 read returns the first value with bit 7 clear. |
| OldPpu.OamWriteRead | covnes/src/ppu.rs:175-180 | Set OAMADDR, write $2004, set OAMADDR back, read $2004: the byte written comes back with all eight bits. The $2004 read is `OldPpu.ReadOamData`. |
| OldPpu.DataPortIncrement | covnes/src/ppu.rs:222-233 | Every $2007 access moves `v` by the increment PPUCTRL selects, within 15 bits. A $2007 write (`OldPpu.WriteData`) is the palette or host write at `v`. |
| OldPpu.ReloadAsWritten | covnes/src/ppu.rs:456-463 | As written, the high attribute latch takes `at & 2` (0 or 2) where the current PPU takes the bit itself; nothing else differs. |
| OldPpu.ReloadAsWrittenMisplacesBit | covnes/src/ppu.rs:456-463 | With attribute bits 10 the latch as written shifts its 1 into bit 1 of the high attribute register, so a pixel drawn from it uses palette 0 (index 1) instead of palette 2 (index 9). |
| OldPpu.TickSetsVblank | covnes/src/ppu.rs:426-437 | Dot 1 of line 241 raises VBLANK and emits an NMI exactly when PPUCTRL enables it. |
| OldPpu.TickClearsVblank | covnes/src/ppu.rs:359-364 | Dot 1 of line 261 lowers VBLANK and keeps the other flags. |
| OldPpu.TickKeepsStatus | covnes/src/ppu.rs:353-454 | On every other dot the registers stay as they were and no NMI is emitted. |
| OldPpu.OddFrameSkip | covnes/src/ppu.rs:421-423 | On an odd frame with rendering on, dot 339 of line 261 is the last of the frame: the next is dot 0 of line 0 of an even frame. The decision is `OldPpu.Skip`. |
| OldPpu.TickAdvances | covnes/src/ppu.rs:441-453 | Everywhere else a dot moves the counters one position on in frame order, flipping the parity only after the frame's last dot. |
| OldPpu.FrameEnd | covnes/src/ppu.rs:132-134 | `is_at_frame_end` holds after a tick exactly when the tick was the last dot of line 261 (dot 340, or dot 339 when it skips). |
| OldSystem.New | covnes/src/system.rs:41-58 | A new console starts in T1, with no cartridge, its PPU at frame end and every pixel black. |
| OldSystem.Reset | covnes/src/system.rs:60-63 | Reset reaches the CPU and the PPU only. |
| OldSystem.GetPixel | covnes/src/system.rs:88-90 | `get_pixel` returns the cell at row * 256 + col, and aborts exactly when that index is past the 61440-cell buffer. |
| OldSystem.SetPixel | covnes/src/system.rs:207-209 | `ppu_set_pixel` stores in that cell and changes nothing else, and aborts exactly when the index is past the buffer. |
| OldSystem.PixelRoundTrip | covnes/src/system.rs:88-90 | A pixel set is read back at its row and column, and every other pixel keeps its colour. |
| OldSystem.Perform | covnes/src/system.rs:194-209 | PPU reads and writes go to the cartridge (aborting where it aborts), an NMI request raises the CPU's NMI line, and a pixel is stored in the screen. |
| OldSystem.PerformAll | covnes/src/system.rs:194-209 | Carrying out a PPU action's effects changes nothing but the CPU, the cartridge, the VRAM and the screen. |
| OldSystem.PerformKeepsCpu | covnes/src/system.rs:194-209 | Without NMI effects, a PPU action leaves the CPU untouched. |
| OldSystem.PerformOnlyRaisesNmi | covnes/src/system.rs:203-205 | A PPU action can change the CPU only by raising its NMI line. |
| OldSystem.Tick | covnes/src/system.rs:92-111 | A master tick moves the phase T1 to T2 to T3 to T1. |
| OldSystemProps.RamMirror | covnes/src/system.rs:150-154 | Below $2000 a read returns the RAM byte at the address mod 2 KB and changes nothing. |
| OldSystemProps.RamRoundTrip | covnes/src/system.rs:172-176 | A RAM write is seen through all four mirrors of its cell and through no other address below $2000. Accesses are served by `OldSystem.Serve`. |
| OldSystemProps.PpuRegisterMirror | covnes/src/system.rs:155-158 | Addresses of $2000-$3FFF that agree mod 8 are the same PPU register, for reads and for writes. |
| OldSystemProps.UnconnectedRanges | covnes/src/system.rs:159-165 | $4000-$4017 reads 0 and ignores writes; $4018-$401F aborts every access. |
| OldSystemProps.CartridgeSpace | covnes/src/system.rs:166-166 | From $4020 up reads and writes succeed exactly when the cartridge's do, with its value and its new state. |
| OldSystemProps.CpuOnlyInT3 | covnes/src/system.rs:93-102 | In T1 and T2 a tick is the PPU dot alone: RAM is untouched and the CPU changes at most by a raised NMI line. |
| OldSystemProps.PpuBeforeCpu | covnes/src/system.rs:103-107 | In T3 the tick succeeds exactly when the PPU dot and then the CPU cycle on its result succeed, and its result is theirs with the phase back at T1. |
| OldSystemProps.VblankDot | covnes/src/system.rs:103-105 | The dot that starts VBLANK never aborts: it raises VBLANK and, exactly when PPUCTRL enables NMI, the CPU's NMI line. |
| OldSystemProps.StatusReadCycle | covnes/src/system.rs:155-158 | A CPU cycle reading $2002 inside an instruction completes and leaves the PPU as the status read does. |
| OldSystemProps.StatusReadSeesSameDot | covnes/src/system.rs:103-107 | A $2002 read in the T3 of the tick that starts VBLANK already sees VBLANK (bit 7 on the latch) and lowers it again. |
| OldSystemProps.TickToT1Counts | covnes/src/system.rs:113-119 | The loop of `tick_cpu` runs exactly as many ticks as the phase is away from T1. |
| OldSystemProps.TickCpuCounts | covnes/src/system.rs:113-119 | `tick_cpu` from T1 is exactly three ticks: three PPU dots per CPU cycle. |
| Nes.New | covnes/src/nes/mod.rs:36-55 | A new console starts in phase T1 with no cartridge and the controller latch low. |
| Nes.Reset | covnes/src/nes/mod.rs:57-61 | Reset resets the CPU, the PPU and the DMA unit and nothing else: the CPU is in its reset sequence, the PPU at dot 0 of scanline 0, the DMA parity even. |
| Nes.InsertCartridge | covnes/src/nes/mod.rs:63-65 | Inserting a cartridge replaces the slot and changes nothing else. |
| Nes.RemoveCartridge | covnes/src/nes/mod.rs:67-69 | Removing the cartridge leaves the slot unconnected and changes nothing else. |
| Nes.PerformRead | covnes/src/nes/mod.rs:206-208 | A PPU read succeeds exactly when the cartridge answers it, and changes nothing. |
| Nes.PerformWrite | covnes/src/nes/mod.rs:210-212 | A PPU write succeeds exactly when the cartridge takes it, and changes only the cartridge and the VRAM as the cartridge says. |
| Nes.Perform | covnes/src/nes/mod.rs:206-224 | Carrying out one PPU effect touches at most the CPU, the cartridge and the VRAM; an NMI trigger sets the CPU's NMI line, a suppression clears it, a pixel leaves the console unchanged. |
| Nes.PerformAll | covnes/src/nes/mod.rs:206-224 | Carrying out a PPU action's effects in order touches at most the CPU, the cartridge and the VRAM. |
| Nes.ReadsOnlyChangeNothing | covnes/src/nes/mod.rs:206-208 | Effects that are only reads and pixels succeed exactly when every read is one the cartridge answers, and then leave the console unchanged. |
| Nes.Pixels | covnes/src/nes/mod.rs:222-224 | The pixels handed to the host are exactly the pixel effects of the action. |
| Nes.RamIndex | covnes/src/nes/mod.rs:148-151 | Every address below $2000 lands in the 2 KB RAM at its offset modulo $800. |
| Nes.PpuReg | covnes/src/nes/mod.rs:152-155 | Every address in $2000-$3FFF selects PPU register `address mod 8`. |
| Nes.ReadPad | covnes/src/nes/mod.rs:156-158 | A $4016 read returns the port-1 data lines and changes only the controller, as the controller's own read does. |
| Nes.ReadCart | covnes/src/nes/mod.rs:168 | A read at $4020 or above succeeds exactly when the cartridge answers it, returns the cartridge's byte and changes nothing. |
| Nes.WriteLatch | covnes/src/nes/mod.rs:184-191 | A $4016 write drives the latch line to bit 0; only a change of the line reaches the controller, which latches the polled buttons on a fall. |
| Nes.WriteCart | covnes/src/nes/mod.rs:198-200 | A write at $4020 or above succeeds exactly when the cartridge takes it, and changes only the cartridge. |
| Nes.Tick | covnes/src/nes/mod.rs:81-101 | A master tick that completes moves the phase T1 to T2 to T3 to T1. |
| Nes.TickToT1 | covnes/src/nes/mod.rs:106-108 | Ticking until T1 ends, when it completes, in phase T1. |
| Nes.TickCpu | covnes/src/nes/mod.rs:103-109 | `tick_cpu`, when it completes, ends in phase T1. |
| NesProps.RamMirror | covnes/src/nes/mod.rs:148-151 | Below $2000 every address reads the RAM byte at its offset modulo 2 KB and changes nothing. |
| NesProps.RamRoundTrip | covnes/src/nes/mod.rs:148-178 | A RAM write always succeeds; a later read of any mirror of the same byte returns the value written, and other bytes are unchanged. Reads and writes are served by `Nes.Serve`. |
| NesProps.PpuRegisterMirror | covnes/src/nes/mod.rs:152-182 | Two addresses in $2000-$3FFF that agree modulo 8 read and write exactly alike. |
| NesProps.ControllerPorts | covnes/src/nes/mod.rs:156-160 | $4016 reads the port-1 controller (shifting it when the latch is low); $4017 reads 0 and changes nothing. Port 2 (`Controller.Port2Read`) is not connected. |
| NesProps.LatchOnlyOnChange | covnes/src/nes/mod.rs:184-191 | A $4016 write whose bit 0 equals the current latch line changes nothing; one that differs changes the line and tells the controller. |
| NesProps.DmaRequest | covnes/src/nes/mod.rs:183 | A $4014 write requests an OAM DMA of that page and changes nothing else. The request is `Dma.TriggerOamDma`. |
| NesProps.DmaIdleCycle | covnes/src/nes/dma.rs:58-76 | Without a transfer in progress a DMA cycle makes no bus access and changes nothing. |
| NesProps.DmaWriteCycle | covnes/src/nes/dma.rs:102-108 | A DMA write cycle (`Dma.Access`, `Nes.DmaBusAccess`) is the PPU's $2004 write of the byte read before it, with the PPU's effects carried out. |
| NesProps.DmaRamReadCycle | covnes/src/nes/dma.rs:88-101 | A DMA read cycle from a page below $2000 reads the RAM byte at that page and offset, modulo 2 KB, and changes nothing. |
| NesProps.ApuSilent | covnes/src/nes/mod.rs:161-194 | The rest of $4000-$4017 reads 0 and ignores writes. |
| NesProps.TestRangeAborts | covnes/src/nes/mod.rs:165-197 | Every read or write in $4018-$401F aborts with the source's message. |
| NesProps.CartridgeSpace | covnes/src/nes/mod.rs:168-200 | At $4020 and above reads and writes go to the cartridge: they succeed exactly when the cartridge's do and yield its byte or its new state. |
| NesProps.OneDotPerTick | covnes/src/nes/mod.rs:81-101 | Every tick does its phase's work and then exactly one PPU dot; it fails only if one of the two fails. The phase work is `Nes.PhaseWork`. |
| NesProps.CpuOnlyInT1 | covnes/src/nes/mod.rs:89-97 | Outside T1 the RAM, the DMA unit, the controller and its latch line do not change. |
| NesProps.DotKeepsBus | covnes/src/nes/mod.rs:84-95 | A PPU dot, with every effect it has on the console, leaves the CPU's RAM, the DMA unit and the controller unchanged. |
| NesProps.TickToT1Counts | covnes/src/nes/mod.rs:106-108 | Ticking back to T1 takes exactly as many ticks as the phase is away from T1. |
| NesProps.TickCpuCounts | covnes/src/nes/mod.rs:103-109 | `tick_cpu` is one tick plus the way back to T1; from T1 it is exactly three ticks, three PPU dots per CPU cycle. |
| Dma.Reset | covnes/src/nes/dma.rs:46-48 | Reset clears the parity and keeps any transfer in progress. |
| Dma.Tick | covnes/src/nes/dma.rs:54-125 | Every cycle flips the parity; the CPU runs exactly when no DMA is under way or a requested one is waiting out a CPU write cycle. |
| Dma.RequestWaitsForRead | covnes/src/nes/dma.rs:61-63 | A request seen in a CPU write cycle waits and lets the CPU run. |
| Dma.RequestAlignment | covnes/src/nes/dma.rs:64-76 | A request starts reading on an odd cycle at once and on an even cycle after one dummy read, so reads always fall on aligned cycles. |
| Dma.PageFrom | covnes/src/nes/dma.rs:88-101 | The bytes still to copy from offset k are 256-k long. |
| Dma.PageFromIndex | covnes/src/nes/dma.rs:88-101 | The i-th byte still to copy from offset k is the page's byte k+i. |
| Dma.NextOffset | covnes/src/nes/dma.rs:109-119 | Below 255 the low byte of the offset never wraps when incremented. |
| Dma.ReadStep | covnes/src/nes/dma.rs:88-101 | A read cycle loads the current page byte and moves to the write state. |
| Dma.WriteStep | covnes/src/nes/dma.rs:102-120 | A write cycle sends the byte to OAMDATA and reads the next offset, or finishes after offset 255. |
| Dma.ReadWritePair | covnes/src/nes/dma.rs:88-120 | A read cycle and its write cycle copy one byte and move to the next offset. |
| Dma.TransferRest | covnes/src/nes/dma.rs:88-120 | From offset k the transfer takes 2(256-k) cycles, halts the CPU throughout, and writes the rest of the page to OAMDATA in order. |
| Dma.WholePage | covnes/src/nes/dma.rs:54-125 | A request outside CPU write cycles copies the whole page, in order, in 513 cycles from an odd cycle and 514 from an even one, and ends idle. |
| Controller.Sanitize | covnes/src/nes/io.rs:80-86 | Latched buttons never hold up with down or left with right; down or right is dropped only when its opposite is held; every other button is kept. |
| Controller.SanitizeIdempotent | covnes/src/nes/io.rs:80-86 | Removing impossible combinations twice is the same as once. |
| Controller.LatchChange | covnes/src/nes/io.rs:74-90 | The line follows the new value; a fall latches the sanitised buttons, a rise keeps the latch. |
| Controller.Port1Read | covnes/src/nes/io.rs:92-111 | A read reports only D0: while the line is high the live A button, otherwise the latch's bit 0 with the latch shifted and bit 7 refilled with 1. |
| Controller.Reads | covnes/src/nes/io.rs:92-111 | n reads with the line low give n bits and leave the line low. |
| Controller.ShiftStep | covnes/src/nes/io.rs:97-99 | After k reads bit 0 is the latched button k, and one more read shifts in a 1. |
| Controller.ReadsReportLatch | covnes/src/nes/io.rs:97-99 | Up to eight reads report the latched buttons in order A, B, Select, Start, Up, Down, Left, Right. |
| Controller.ExhaustedReadsOne | covnes/src/nes/io.rs:98 | After eight reads the controller reports 1 on every further read. |
| Controller.LatchThenRead | covnes/src/nes/io.rs:74-99 | Latching and reading eight times reports exactly the sanitised buttons and leaves the latch all ones. |
| MapperCommon.FixedMirroring | covnes/src/nes/mappers/nrom.rs:31-35 | Horizontal and vertical header mirroring map to the same nametable mode; four-screen aborts and never yields an error value. |
| MapperCommon.VramIndex | covnes/src/nes/mappers/common.rs:12-40 | Exactly the addresses $2000-$3FFF have a VRAM cell, always inside the 2 KB VRAM; any other address aborts. |
| MapperCommon.PageOf | covnes/src/nes/mappers/common.rs:27-37 | Each of the four logical nametables lands on one of the two 1 KB VRAM pages. |
| MapperCommon.VramIndexLayout | covnes/src/nes/mappers/common.rs:12-40 | The cell of an address is its table's page times 1 KB plus its offset within the table. |
| MapperCommon.TableLayout | covnes/src/nes/mappers/common.rs:18-22 | Inside table k the cell is the page of k plus the distance from the table's start. |
| MapperCommon.VramAliasBelow | covnes/src/nes/mappers/common.rs:23 | $3000-$3FFF reaches the same cell as the address $1000 lower. |
| MapperCommon.HorizontalSharing | covnes/src/nes/mappers/common.rs:30-35 | With horizontal mirroring tables 0 and 1 share the first page and tables 2 and 3 the second. |
| MapperCommon.VerticalSharing | covnes/src/nes/mappers/common.rs:30-35 | With vertical mirroring tables 0 and 2 share the first page and tables 1 and 3 the second. |
| MapperCommon.OneScreen | covnes/src/nes/mappers/common.rs:28-29 | One-screen mirroring maps every table to the lower page, or every table to the upper page. |
| MapperCommon.NametableRead | covnes/src/nes/mappers/nrom.rs:133 | With a 2 KB VRAM a nametable read succeeds exactly on $2000-$3FFF. |
| MapperCommon.NametableWrite | covnes/src/nes/mappers/nrom.rs:148 | A nametable write keeps the VRAM's size and succeeds exactly on $2000-$3FFF. |
| MapperCommon.NametableWriteRead | covnes/src/nes/mappers/common.rs:12-40 | A nametable write is seen by every address mirrored onto the same cell and by no other. |
| MapperCommon.ChrRead | covnes/src/nes/mappers/nrom.rs:129-132 | A pattern read succeeds exactly inside the CHR memory and otherwise aborts. |
| MapperCommon.ChrWrite | covnes/src/nes/mappers/nrom.rs:140-147 | A write to CHR ROM changes nothing; one to CHR RAM succeeds exactly inside it and keeps its kind and size. |
| MapperCommon.ChrWriteRead | covnes/src/nes/mappers/nrom.rs:129-147 | A CHR RAM write reads back at the same index and changes no other index. |
| MapperCommon.NewPrgRam | covnes/src/nes/mappers/nrom.rs:14-18 | The cartridge gets 8 KB of PRG RAM exactly when the header provides it. |
| MapperCommon.PrgRamWrite | covnes/src/nes/mappers/nrom.rs:110-117 | A PRG RAM write keeps the RAM's presence and size and changes nothing when there is no RAM. |
| MapperCommon.PrgRamWriteRead | covnes/src/nes/mappers/nrom.rs:64-117 | A PRG RAM byte reads back what was written to it, other bytes keep theirs, and without RAM every read is 0. |
| MapperCommon.BankWrap | covnes/src/nes/mappers/uxrom.rs:74-85 | Wrapping a banked address by the ROM size is wrapping the bank number by the bank count. |
| Nrom.FromRom | covnes/src/nes/mappers/nrom.rs:7-44 | PRG ROM other than 16 or 32 KB, or CHR ROM other than 8 KB, is an error; four-screen mirroring aborts; otherwise the ROM is kept, PRG RAM given as the header says, and 8 KB of CHR RAM when there is no CHR ROM. |
| Nrom.ReadCpu | covnes/src/nes/mappers/nrom.rs:61-106 | Below $6000 reads are 0; $6000-$7FFF reads the PRG RAM (0 without it). |
| Nrom.MirroredPrg | covnes/src/nes/mappers/nrom.rs:74-75 | With 16 KB of PRG ROM $C000-$FFFF reads the same bytes as $8000-$BFFF. |
| Nrom.LinearPrg | covnes/src/nes/mappers/nrom.rs:96 | With 32 KB of PRG ROM $8000-$FFFF reads the ROM linearly. |
| Nrom.WriteCpu | covnes/src/nes/mappers/nrom.rs:108-125 | A CPU write changes at most the PRG RAM, and nothing outside $6000-$7FFF or without PRG RAM. |
| Nrom.WriteThenReadCpu | covnes/src/nes/mappers/nrom.rs:61-125 | A CPU write is seen only by a read of the same PRG RAM byte; every other read is unchanged. |
| Nrom.ReadPpu | covnes/src/nes/mappers/nrom.rs:127-136 | With a 2 KB VRAM a PPU read succeeds exactly below $4000: pattern bytes below $2000, nametables above. |
| Nrom.WritePpu | covnes/src/nes/mappers/nrom.rs:138-151 | A PPU write changes at most CHR RAM and VRAM; it is ignored for CHR ROM and succeeds on every address below $4000. |
| Nrom.ChrRamRoundTrip | covnes/src/nes/mappers/nrom.rs:127-151 | With CHR RAM a pattern write reads back at its address and changes no other pattern byte. |
| UxRom.FromRom | covnes/src/nes/mappers/uxrom.rs:7-45 | A PRG ROM that is not 1-128 16 KB banks (a power of two), or CHR ROM other than 8 KB, is an error; four-screen aborts; otherwise bank 0 is selected. |
| UxRom.ReadCpu | covnes/src/nes/mappers/uxrom.rs:62-88 | Below $6000 reads are 0; $6000-$7FFF reads the PRG RAM (0 without it). |
| UxRom.SwitchableBank | covnes/src/nes/mappers/uxrom.rs:74-79 | $8000-$BFFF shows the selected bank, taken modulo the bank count. |
| UxRom.LastBankIndex | covnes/src/nes/mappers/uxrom.rs:80-85 | Bank 255 modulo any supported bank count is the last bank. |
| UxRom.FixedLastBank | covnes/src/nes/mappers/uxrom.rs:80-85 | $C000-$FFFF always shows the last 16 KB of PRG ROM. |
| UxRom.WriteCpu | covnes/src/nes/mappers/uxrom.rs:90-106 | A write at $8000 or above selects the bank and changes nothing else; below $6000 writes are ignored. |
| UxRom.SelectThenRead | covnes/src/nes/mappers/uxrom.rs:74-103 | After selecting a bank, $8000-$BFFF shows that bank modulo the bank count. |
| UxRom.WriteThenReadRam | covnes/src/nes/mappers/uxrom.rs:62-100 | PRG RAM keeps what the CPU writes; other bytes are unchanged, and without PRG RAM reads stay 0. |
| UxRom.ReadPpu | covnes/src/nes/mappers/uxrom.rs:108-117 | With a 2 KB VRAM a PPU read succeeds exactly below $4000: pattern bytes below $2000, nametables above. |
| UxRom.WritePpu | covnes/src/nes/mappers/uxrom.rs:119-128 | A PPU write changes at most CHR RAM and VRAM; it is ignored for CHR ROM and succeeds on every address below $4000. |
| UxRom.ChrRamRoundTrip | covnes/src/nes/mappers/uxrom.rs:108-128 | With CHR RAM a pattern write reads back at its address and changes no other pattern byte. |
| SxRom.FromRom | covnes/src/nes/mappers/sxrom.rs:12-57 | The constructor returns exactly when the PRG and CHR bank counts pass its assertions, with the shift register empty, control $0C and all banks 0; it never returns an error value. |
| SxRom.GetMirroring | covnes/src/nes/mappers/sxrom.rs:77-84 | Control bits 0-1 select one-screen lower, one-screen upper, vertical or horizontal mirroring, each for exactly one value. |
| SxRom.PrgBankAndOffset | covnes/src/nes/mappers/sxrom.rs:116-137 | The PRG window offset stays inside 32 KB, inside 16 KB in the 16 KB modes, and the 32 KB mode uses an even bank. |
| SxRom.ReadCpu | covnes/src/nes/mappers/sxrom.rs:107-144 | Reads below $6000 abort; $6000-$7FFF reads the PRG RAM (0 without it); no read yields an error value. |
| SxRom.LastPrgBank | covnes/src/nes/mappers/sxrom.rs:125 | Bank 31 modulo any supported PRG bank count is the last bank. |
| SxRom.FixedLastBank | covnes/src/nes/mappers/sxrom.rs:120-126 | In mode 3 $C000-$FFFF shows the last 16 KB of PRG ROM. |
| SxRom.FixedFirstBank | covnes/src/nes/mappers/sxrom.rs:127-133 | In mode 2 $8000-$BFFF shows the first 16 KB of PRG ROM. |
| SxRom.WidePrgIgnoresLowBit | covnes/src/nes/mappers/sxrom.rs:134-137 | In the 32 KB modes bit 0 of the PRG bank makes no difference. |
| SxRom.Commit | covnes/src/nes/mappers/sxrom.rs:163-172 | Committing a register value never touches the ROM, CHR or PRG RAM. |
| SxRom.Serial | covnes/src/nes/mappers/sxrom.rs:155-177 | A serial write never touches ROM, CHR or PRG RAM, and a write with bit 7 set only empties the shift register. |
| SxRom.WriteCpu | covnes/src/nes/mappers/sxrom.rs:146-179 | Writes below $6000 abort; $6000-$7FFF writes the PRG RAM; $8000 and above feed the shift register; the result is a valid cartridge. |
| SxRom.WriteThenReadRam | covnes/src/nes/mappers/sxrom.rs:112-154 | PRG RAM keeps what the CPU writes; other bytes are unchanged, and without PRG RAM reads stay 0. |
| SxRom.SerialAll | covnes/src/nes/mappers/sxrom.rs:155-177 | Any run of serial writes leaves the ROM, CHR and PRG RAM alone. |
| SxRom.Assemble | covnes/src/nes/mappers/sxrom.rs:159-172 | The value five serial writes commit is a 5-bit register value. |
| SxRom.ShiftOne | covnes/src/nes/mappers/sxrom.rs:159-175 | Each of the first four data writes shifts its bit 0 into the shift register and commits nothing. |
| SxRom.PartialLoad | covnes/src/nes/mappers/sxrom.rs:159-175 | Up to four data writes from an empty shift register only fill it with their bits. |
| SxRom.FifthWriteCommits | covnes/src/nes/mappers/sxrom.rs:159-172 | Five data writes from an empty shift register commit their five bit 0s, first write lowest, to the register the fifth write's address selects. |
| SxRom.CommitValue | covnes/src/nes/mappers/sxrom.rs:160-165 | After four writes the marker bit has reached bit 0, and the fifth write's shift yields exactly the assembled value. |
| SxRom.ChrIndexInBounds | covnes/src/nes/mappers/sxrom.rs:86-103 | For CHR memory made of whole 8 KB banks every pattern address maps inside it. |
| SxRom.ChrIndexAsWrittenInBounds | covnes/src/nes/mappers/sxrom.rs:86-103 | The CHR index exactly as written, with the 8 KB mode's `* 0x2000`, stays inside CHR of any whole number of 8 KB banks, in both modes. |
| SxRom.ChrIndexAsWrittenSkipsBanks | covnes/src/nes/mappers/sxrom.rs:101 | With 16 KB of CHR and bank register 2 in 8 KB mode, the code as written shows bank 0 instead of the second 8 KB bank. |
| SxRom.EveryChrBankReachable | covnes/src/nes/mappers/sxrom.rs:86-103 | With the bank counted in 4 KB units, bank register 2k shows exactly 8 KB bank k in 8 KB mode. |
| SxRom.ReadPpu | covnes/src/nes/mappers/sxrom.rs:181-190 | With a 2 KB VRAM and whole CHR banks a PPU read succeeds exactly below $4000; nametables follow the mirroring the control register selects. |
| SxRom.WritePpu | covnes/src/nes/mappers/sxrom.rs:192-201 | A PPU write changes at most CHR RAM and VRAM, is ignored for CHR ROM, and succeeds exactly below $4000. |
| SxRom.ChrRamRoundTrip | covnes/src/nes/mappers/sxrom.rs:181-201 | With CHR RAM a pattern write reads back at its address. |
| Cartridges.FromRom | covnes/src/nes/mappers/mod.rs:17-24 | Mappers 0, 1 and 2 build NROM, SxROM and UxROM; any other number is the error "Unsupported mapper: n"; a built cartridge is valid and connected. A mapper constructor's error or abort passes through unchanged (`Cartridges.Wrap`). |
| Cartridges.WriteCpu | covnes/src/nes/mappers/mod.rs:44-51 | A CPU write goes to the inserted mapper and keeps its kind and validity; with no cartridge it aborts. |
| Cartridges.WritePpu | covnes/src/nes/mappers/mod.rs:62-69 | A PPU write goes to the inserted mapper, keeps the cartridge valid and the VRAM's size; with no cartridge it aborts. |
| Cartridges.PrgRamRoundTrip | covnes/src/nes/mappers/mod.rs:35-51 | Whatever the mapper, $6000-$7FFF is plain storage when there is PRG RAM and reads 0 when there is none. Reads go through `Cartridges.ReadCpu` and abort with no cartridge inserted. |
| Cartridges.NametableRoundTrip | covnes/src/nes/mappers/mod.rs:53-69 | Behind every mapper a nametable write to $2000-$3FFF reads back. Reads go through `Cartridges.ReadPpu`, and writes through `Cartridges.Slot`, which keeps the mapper's abort reason. |
| RomFiles.FromRead | covnes/src/romfiles.rs:31-93 | A file parses exactly when it has a 16-byte header starting with "NES" and $1A, no trainer, and all the PRG and CHR bytes the header announces; the ROMs have the announced sizes, CHR ROM is absent exactly when its count is 0, and the mapper is below 256. Every failure is an error value, never an abort. |
| RomFiles.MapperNibbles | covnes/src/romfiles.rs:63-64 | The mapper number is the high nibble of flags 7 over the high nibble of flags 6. |
| RomFiles.FourScreenPrecedence | covnes/src/romfiles.rs:53-61 | Four-screen mirroring is chosen exactly when flags 6 bit 3 is set; otherwise bit 0 chooses vertical over horizontal. |
| RomFiles.Flags6Low | covnes/src/romfiles.rs:46-61 | The mirroring and PRG RAM flags a writer puts in flags 6 fit in its low nibble. |
| RomFiles.Header | covnes/src/romfiles.rs:32-44 | The header of a ROM image is 16 bytes long. |
| RomFiles.Image | covnes/src/romfiles.rs:68-84 | An image is the header, then the PRG ROM, then the CHR ROM. |
| RomFiles.MapperBytes | covnes/src/romfiles.rs:63-64 | Splitting a mapper number into flags 6 and 7 and joining the nibbles again gives the number back. |
| RomFiles.Flags6Decodes | covnes/src/romfiles.rs:46-64 | The flags a writer produces decode to no trainer, the ROM's PRG RAM flag, its mirroring and its mapper. |
| RomFiles.FlagBits | covnes/src/romfiles.rs:63 | The low nibble of flags 6 survives the mapper nibble written above it. |
| RomFiles.HeaderFields | covnes/src/romfiles.rs:39-47 | A written header carries the magic bytes, the ROM sizes in banks, a zero CHR count exactly when there is no CHR ROM, and the flags. |
| RomFiles.ParseImage | covnes/src/romfiles.rs:31-93 | Parsing the image of any ROM the format can describe gives that ROM back. |
| RomFiles.TrailingBytesIgnored | covnes/src/romfiles.rs:68-84 | Bytes after the announced ROMs do not change the result. |
| Fm2Text.ReadLine | covnes/src/fm2_movie_file.rs:115 | A line read is a non-empty prefix of the text, with no newline before its last character, ending in a newline unless it is the last line; the rest is what follows it. |
| Fm2Text.ReadLineOf | covnes/src/fm2_movie_file.rs:115 | Reading a line from "l, newline, rest" gives l with its newline, and leaves rest. |
| Fm2Text.Trim | covnes/src/fm2_movie_file.rs:119-125 | Trimming only drops a suffix, and always drops a final newline. |
| Fm2Text.TrimEndings | covnes/src/fm2_movie_file.rs:119-125 | Trimming removes exactly one "\n" or "\r\n" ending and leaves a line without one unchanged. |
| Fm2Text.SplitKey | covnes/src/fm2_movie_file.rs:132-135 | A header line splits exactly when it holds a space: a key with no space, then the rest after the first space. |
| Fm2Text.SplitKeyOf | covnes/src/fm2_movie_file.rs:132-135 | "k v" with a space-free key splits into k and v. |
| Fm2Text.Split | covnes/src/fm2_movie_file.rs:229 | Splitting always gives at least one piece and no piece holds the separator. |
| Fm2Text.JoinSplit | covnes/src/fm2_movie_file.rs:229 | Joining the pieces of a split with the separator gives the text back. |
| Fm2Text.SplitJoin | covnes/src/fm2_movie_file.rs:229 | Splitting a join of separator-free pieces gives the pieces back. |
| Fm2Text.NoSeparator | covnes/src/fm2_movie_file.rs:229 | Text without the separator splits into itself alone. |
| Fm2Text.ParseI32 | covnes/src/fm2_movie_file.rs:330-345 | An accepted integer is a 32-bit value, starts with a digit or a sign, and is the decimal value of its digits with the sign applied. |
| Fm2Text.DigitsOfDecimal | covnes/src/fm2_movie_file.rs:330-345 | The decimal form of a number is all digits and reads back as the number. |
| Fm2Text.ParseDecimal | covnes/src/fm2_movie_file.rs:330-345 | Every 32-bit value, written in decimal with a minus sign when negative, parses back to itself. |
| Fm2Text.ShiftIn | covnes/src/fm2_movie_file.rs:376-382 | Shifting a button bit in moves every earlier bit one place up and puts the new one at bit 0. |
| Fm2Text.GamepadBitsAt | covnes/src/fm2_movie_file.rs:376-382 | Bit j of a gamepad field's value says whether the character j places from the end is a pressed button. |
| Fm2Text.BitsDetermine | covnes/src/fm2_movie_file.rs:376-382 | Two bytes with the same eight bits are equal. |
| Fm2Text.FormatGamepad | covnes/src/fm2_movie_file.rs:373-385 | A recorder's gamepad field is eight ASCII characters, so eight bytes, the i-th pressed exactly when bit 7-i is set. |
| Fm2Text.Utf8Len | covnes/src/fm2_movie_file.rs:374 | `str::len`: every character takes one to four bytes by its code point, and ASCII text takes exactly one byte per character. |
| Fm2Text.Utf8LenConcat | covnes/src/fm2_movie_file.rs:374 | The byte length of a concatenation is the sum of the parts' byte lengths. |
| Fm2.ScanHeader | covnes/src/fm2_movie_file.rs:113-144 | Empty text is NoInput; a scanned header ends at a line starting with '|', consumes text, keeps every field already read and never counts lines backwards. |
| Fm2.HeaderRoundTrip | covnes/src/fm2_movie_file.rs:113-144 | A written header with distinct, well-formed keys followed by an input line scans as exactly its fields, with the input line numbered one past the header. |
| Fm2.TailPairs | covnes/src/fm2_movie_file.rs:137-141 | After the first header line is read, the other lines still have fresh, distinct keys. |
| Fm2.HeaderEnds | covnes/src/fm2_movie_file.rs:127-130 | A line starting with '|' ends the header and is the first input line. |
| Fm2.ScanOneLine | covnes/src/fm2_movie_file.rs:132-143 | A well-formed header line adds its key and value and moves to the next line. |
| Fm2.Required | covnes/src/fm2_movie_file.rs:323-328 | A required key yields its value and is taken out; a missing one is RequiredKeyNotFound. |
| Fm2.RequiredInt | covnes/src/fm2_movie_file.rs:330-336 | A required integer succeeds exactly when the key is present and its value is a 32-bit integer; otherwise the error names the missing key or the bad value. |
| Fm2.OptionalInt | covnes/src/fm2_movie_file.rs:338-349 | An optional integer succeeds exactly when the key is absent or an integer, giving None when absent. The key is taken out by `Fm2.Optional` either way. |
| Fm2.OptionalBool | covnes/src/fm2_movie_file.rs:351-361 | A boolean key succeeds exactly when it is absent, 0 or 1, and is true exactly when it is 1; other integers are NotABool and non-integers NotAnInteger. |
| Fm2.InputDevice | covnes/src/fm2_movie_file.rs:363-371 | A port key succeeds exactly on 0, 1 or 2, giving no device, a gamepad or a zapper; other values are BadInputDevice. |
| Fm2.ReadVersions | covnes/src/fm2_movie_file.rs:148-152 | The version keys are taken out in order; a missing version is RequiredKeyNotFound("version"). |
| Fm2.ReadSwitches | covnes/src/fm2_movie_file.rs:154-161 | The four switch keys are taken out, and the Four Score switch is read from "fourscore". |
| Fm2.ReadPorts | covnes/src/fm2_movie_file.rs:163-186 | With a Four Score no ports are read, otherwise port0 and port1 are; port2 must be 0; the devices start with no inputs. |
| Fm2.ReadNames | covnes/src/fm2_movie_file.rs:190-219 | The name keys succeed exactly when romFilename, guid and romChecksum are present and length is absent or an integer. |
| Fm2.ReadTail | covnes/src/fm2_movie_file.rs:188-219 | The binary flag and the name keys succeed exactly when the flag is a boolean and the names are present. |
| Fm2.ReadKeysWith | covnes/src/fm2_movie_file.rs:146-223 | A header that is read has the binary flag clear and devices with no inputs; one without "version" fails with RequiredKeyNotFound("version"). |
| Fm2.BinaryKeys | covnes/src/fm2_movie_file.rs:158-188 | "fds" is one of the switch keys already taken out when the binary flag is read; "binary" is taken by no other step. |
| Fm2.AsWrittenNeverBinary | covnes/src/fm2_movie_file.rs:188-223 | As written, no header is ever refused as binary, because the flag is looked up under "fds" after that key is gone. |
| Fm2.BinaryRefused | covnes/src/fm2_movie_file.rs:187-223 | Corrected, every header the as-written parser accepts whose "binary" key is 1 is refused as binary. |
| Fm2.ParseGamepad | covnes/src/fm2_movie_file.rs:373-385 | A gamepad field whose UTF-8 length is not 8 bytes is BadGamepadInput. One of 8 bytes has at most 8 characters and gives a byte whose bit j says whether the j-th character from the end is pressed, with bit j clear when there are no more than j characters. Eight ASCII characters put the first one in bit 7. |
| Fm2.GamepadLengthInBytes | covnes/src/fm2_movie_file.rs:374-381 | The length test counts bytes: four two-byte characters (U+00E9) pass it and give $0F, and eight characters of which the last is U+00E9 (nine bytes) are BadGamepadInput. |
| Fm2.GamepadRoundTrip | covnes/src/fm2_movie_file.rs:373-385 | Parsing the field a recorder writes for a byte gives the byte back. |
| Fm2.CommandRoundTrip | covnes/src/fm2_movie_file.rs:247-256 | Every byte made of known command bits, written in decimal, parses back to itself. The field is parsed by `Fm2.ParseCommand`. |
| Fm2.SmallCommand | covnes/src/fm2_movie_file.rs:250 | A byte made of known command bits is below 32. |
| Fm2.ByteOfValue | covnes/src/fm2_movie_file.rs:250 | Converting a byte to a number and back gives it unchanged. |
| Fm2.ParseDeviceInput | covnes/src/fm2_movie_file.rs:396-416 | No device accepts only an empty field; a gamepad accepts exactly the fields of 8 UTF-8 bytes and gains their buttons; a zapper field aborts. |
| Fm2.ParseFrame | covnes/src/fm2_movie_file.rs:261-267 | A Four Score record succeeds exactly when the four players' fields are 8 UTF-8 bytes each, and yields their buttons in order. |
| Fm2.ParseRecordWith | covnes/src/fm2_movie_file.rs:229-273 | A record is accepted exactly when it has the right number of '|' pieces, is empty at both ends and in the expansion port, has a valid command and valid device fields; the wrong number of pieces is BadInputLine. |
| Fm2.RecordPieces | covnes/src/fm2_movie_file.rs:229-245 | A written record splits into the empty first piece, the command, the fields, and the empty expansion and last pieces. |
| Fm2.FourscoreRoundTrip | covnes/src/fm2_movie_file.rs:229-273 | A written Four Score record parses back to its command and the four players' buttons. |
| Fm2.PortsRoundTrip | covnes/src/fm2_movie_file.rs:229-273 | A written two-gamepad record parses back to its command, and each gamepad gains the buttons written for it. The two ports are parsed by `Fm2.ParseDevices`. |
| Fm2.NoBarInGamepad | covnes/src/fm2_movie_file.rs:229 | A recorder's gamepad field never holds the separator. |
| Fm2.TwoPlayersPieces | covnes/src/fm2_movie_file.rs:229-245 | The sample Four Score record splits into eight pieces, with player 3's and player 4's fields apart. |
| Fm2.AsWrittenCopiesPlayer3 | covnes/src/fm2_movie_file.rs:264-265 | As written, player 4 of the sample record gets player 3's buttons; corrected, the two differ. |
| Fm2.ParseRecords | covnes/src/fm2_movie_file.rs:228-295 | The records extend the commands so far, every device keeps one input per command, and a length is never overrun. |
| Fm2.LengthStops | covnes/src/fm2_movie_file.rs:277-281 | With a length of one the first record ends the movie, whatever text follows. |
| Fm2.RecordAdds | covnes/src/fm2_movie_file.rs:258-273 | A record adds exactly one input to every device. |
| Fm2.ParseWith | covnes/src/fm2_movie_file.rs:106-316 | Empty text is NoInput; a parsed movie has at least one command and one input per command for every device. |
| Fm2.Parse | covnes/src/fm2_movie_file.rs:106-316 | The corrected parser: empty text is NoInput; a movie has at least one command, one input per command for every device, is never binary, and never has more commands than a positive length. |
| Fm2.ParseAsWritten | covnes/src/fm2_movie_file.rs:106-316 | The parser as written also answers NoInput for empty text. |
| ProtoRoms.Parse | src/roms.rs:20-76 | The reader aborts exactly when a file with a full header and the magic bytes announces a PRG bank count other than 1 or 2; it accepts only files with a full header and the magic bytes. |
| ProtoRoms.FromRead | src/roms.rs:20-76 | With the mapper test corrected, a file loads exactly when it has the header and magic bytes, one or two PRG banks, a nonzero CHR count, no trainer, mapper 0 and all announced bytes; the ROMs have the announced sizes and the mirroring follows flags 6. |
| ProtoRoms.MapperZero | src/roms.rs:51-53 | Refusing a file when either flag byte has a nonzero mapper nibble refuses exactly the mappers other than 0. |
| ProtoRoms.LoadedSizes | src/roms.rs:32-69 | A loaded ROM has 16 or 32 KB of PRG ROM and a nonempty CHR ROM made of whole 8 KB banks. |
| ProtoRoms.MapperOneAccepted | src/roms.rs:51-53 | As written, a mapper-1 file (mapper nibble only in flags 6) loads as if it were mapper 0, while the corrected reader refuses it. |
| ProtoRoms.Image | src/roms.rs:20-76 | A written image is exactly as long as a 16-byte header plus both ROMs, the length the reader expects. |
| ProtoRoms.Flags6Decodes | src/roms.rs:37-53 | The flags byte a writer produces has no trainer and no mapper bits, and decodes to the ROM's mirroring. |
| ProtoRoms.ImageFields | src/roms.rs:28-69 | A written image carries the magic bytes, the bank counts, the flags and then the two ROMs. |
| ProtoRoms.ParseImage | src/roms.rs:20-76 | Reading the image of any ROM this reader can describe gives that ROM back. |
| ProtoCartridge.FromRom | src/cartridges.rs:3-12 | The mapper keeps the ROM's contents and mirroring, and mirrors PRG ROM exactly when it is at most 16 KB. |
| ProtoCartridge.PrgAt | src/cartridges.rs:30-36 | A PRG index inside the ROM gives its byte; outside it the access aborts. |
| ProtoCartridge.ReadCpu | src/cartridges.rs:27-40 | Reads below $8000 abort with "Bad read"; no read yields an error value. |
| ProtoCartridge.WriteCpu | src/cartridges.rs:42-44 | Every write to the cartridge aborts. |
| ProtoCartridge.ReadsPrg | src/cartridges.rs:27-40 | For a 16 or 32 KB ROM, $8000 and above read the PRG byte at the offset modulo the ROM size. |
| ProtoCartridge.MirroredHalves | src/cartridges.rs:28-33 | With 16 KB of PRG ROM, $C000-$FFFF reads the same bytes as $8000-$BFFF. |
| ProtoBus.FromRom | src/system.rs:14-33 | A new machine's RAM is 2 KB of zeros and its cartridge is built from the ROM. |
| ProtoBus.Read | src/system.rs:54-75 | PPU and APU addresses read 0; $4018-$401F aborts; $4020 and above read the cartridge; no read yields an error value. |
| ProtoBus.Write | src/system.rs:77-98 | A write succeeds exactly below $4018, keeps the cartridge, and is ignored in $2000-$4017. |
| ProtoBus.RamMirrors | src/system.rs:57-60 | Below $2000 every address reads the RAM byte at its offset modulo 2 KB. |
| ProtoBus.RamWriteRead | src/system.rs:57-83 | A RAM write is seen through every mirror of its byte and by no other RAM address. |
| ProtoBus.FirstByte | src/system.rs:73 | $C000 reads the first byte of a 16 KB ROM and the first byte of the second half of a 32 KB one. |
| ProtoSystem.FromRom | src/system.rs:14-33 | The CPU starts at $C000 with every register 0, fetching an opcode. |
| ProtoSystem.Advance | src/cpu.rs:312-1027 | A cycle completes exactly when the CPU did not meet an illegal opcode, and then only the CPU changes. |
| ProtoSystem.Access | src/system.rs:53-99 | A bus access never yields an error value, keeps the bus valid and the cartridge unchanged, and reads 0 when it is not a read. |
| ProtoSystem.Tick | src/cpu.rs:312-1027 | A CPU cycle on this bus keeps the machine valid and the cartridge unchanged, and fails only by aborting. |
| ProtoSystem.Ticks | src/cpu.rs:312-1027 | Any number of cycles keeps the machine valid and fails only by aborting. |
| ProtoSystem.TickProgresses | src/cpu.rs:312-1027 | A cycle inside an instruction brings the next opcode fetch strictly closer. |
| ProtoSystem.TickExtends | src/system.rs:44-47 | One more cycle of an unfinished instruction extends the run, stays inside the instruction and brings the fetch closer. |
| ProtoSystem.InsideExtends | src/system.rs:44-47 | A run that has not reached an opcode fetch stays inside the instruction for one more cycle. |
| ProtoSystem.StepInstruction | src/system.rs:40-50 | `step_cpu_instruction` ends at an opcode fetch after 1 to 8 cycles, exactly the cycles it counts, with no fetch in between, or it aborts. |
| ProtoSystem.FirstFetch | src/system.rs:14-33 | The first opcode is read from $C000: the start of a 16 KB ROM, or of the second half of a 32 KB one. |
| ProtoCpu.SetFlagValue | src/cpu.rs:27-43 | Setting a flag changes only the bits of its mask, which end up all set or all clear as asked. |
| ProtoCpu.Decode | src/cpu.rs:314-603 | The opcodes that only the later core adds (ANC, ALR, ARR, AXS, SHY, SHX) are illegal here. |
| ProtoCpuProps.DecodeOnlyListed | src/cpu.rs:314-603 | Every opcode that the later core leaves undecoded, or that only the later core adds, is an illegal opcode here. |
| ProtoCpuProps.GetDAsWrittenMissesDecimal | src/cpu.rs:85-87 | As written, `get_d` tests the I mask: it reports D clear when only D is set and D set when only I is set. |
| ProtoCpuProps.GetDReadsDecimal | src/cpu.rs:85-87 | With the mask corrected, `get_d` is true exactly when the status byte's D bit is set. |
| ProtoCpuProps.BranchTargetAsWrittenZero | src/cpu.rs:764-770 | As written, a zero offset counts as negative and sends a taken branch 256 bytes back instead of to the next instruction. |
| ProtoCpuProps.BranchTargetAsWrittenElsewhere | src/cpu.rs:764-770 | For every nonzero offset, the branch target as written is the two's-complement target. |
| ProtoCpuProps.BranchFixupAsWrittenMisses | src/cpu.rs:774-778 | The prototype's dummy-read address as written stays in the old page, but for every nonzero offset its low byte is the target's plus the offset, never the target's own: from $10F0 by +$20 it reads $1030, not $1010. |
| ProtoCpuProps.TakenBranchFixup | src/cpu.rs:764-782 | With the fixup corrected, a taken branch within the page fetches next, and one that crosses a page does its dummy read in the old page at the target's low byte, the old low byte plus the offset. |
| ProtoCpuProps.TakenBranchTarget | src/cpu.rs:764-770 | With the zero offset corrected, a taken branch moves PC by the offset read as a signed byte. |
| ProtoCpuProps.StepAfter | src/cpu.rs:312-1027 | Only an opcode fetch can raise an illegal opcode; every other cycle continues. |
| ProtoCpuProps.ReadOpsRequest | src/cpu.rs:644-650 | A read operation on an address reads that address, as in the later core. |
| ProtoCpuProps.ReadOpsAgree | src/cpu.rs:644-650 | A read operation on an address changes the registers and flags as in the later core and keeps bits 4 and 5 of P. |
| ProtoCpuProps.ImmediateOpsAgree | src/cpu.rs:606-614 | An immediate read operation changes the registers and flags as in the later core and keeps bits 4 and 5 of P. |
| ProtoCpuProps.PulledFlagsAgree | src/cpu.rs:847-923 | A status byte pulled by PLP or RTI has B clear and bit 5 set, keeps its other bits, and unpacks to the later core's pulled flags. |
| ProtoCpuProps.PlpStores | src/cpu.rs:920-928 | PLP's last cycle reads the byte above S into P with B cleared and bit 5 set, and ends the instruction. |
| ProtoCpuProps.RtiStores | src/cpu.rs:844-853 | RTI's third cycle pulls P the same way and goes on to pull the return address. |
| ProtoCpuProps.PhpPushes | src/cpu.rs:905 | PHP pushes P with B set. |
| ProtoCpuProps.PushWrites | src/cpu.rs:907-913 | A push writes its value at S in page 1, decrements S and ends the instruction. |
| ProtoTrace.RunAppend | src/cpu.rs:312-1027 | A run that stops with the CPU running, followed by a run from there, is one run of the combined length with the events concatenated. |
| ProtoTrace.TickRead | src/cpu.rs:312-1027 | A reading cycle reads memory at the requested address, leaves memory unchanged and records the read. |
| ProtoTrace.TickWrite | src/cpu.rs:312-1027 | A writing cycle stores its value and records the write. |
| ProtoTrace.TickIdle | src/cpu.rs:312-1027 | A cycle without a bus access leaves memory unchanged and records an idle cycle. |
| ProtoTrace.DecodeBrk | src/cpu.rs:314-603 | Opcode $00 decodes to BRK. |
| ProtoTrace.FetchBrk | src/cpu.rs:314-321 | Fetching $00 reads it at PC, advances PC and starts BRK. |
| ProtoTrace.Brk1 | src/cpu.rs:793-798 | BRK's second cycle skips the signature byte without a bus access. |
| ProtoTrace.Brk2 | src/cpu.rs:799-807 | BRK's third cycle pushes the return address's high byte. |
| ProtoTrace.Brk3 | src/cpu.rs:808-816 | BRK's fourth cycle pushes the return address's low byte. |
| ProtoTrace.Brk4 | src/cpu.rs:817-823 | BRK's fifth cycle pushes P as it is. |
| ProtoTrace.Brk5 | src/cpu.rs:824-827 | BRK's sixth cycle reads the vector's low byte from $FFFE. |
| ProtoTrace.Brk6 | src/cpu.rs:828-834 | BRK's last cycle reads the high byte from $FFFF, jumps to the vector and ends the instruction. |
| ProtoTrace.BrkStart | src/cpu.rs:314-798 | BRK's first two cycles read the opcode, skip the signature byte and leave PC two past the opcode. |
| ProtoTrace.BrkPushes | src/cpu.rs:799-823 | BRK's three pushes write the return address high byte, low byte and P below S, leaving S three lower. |
| ProtoTrace.BrkVector | src/cpu.rs:824-834 | BRK's last two cycles read the vector from $FFFE/$FFFF and jump to it. |
| ProtoTrace.BrkSequence | src/cpu.rs:314-834 | BRK takes seven cycles: the opcode read, an idle cycle, three pushes of the address past the signature and the unchanged P, and the vector read; it leaves every flag, I included, as it was. |
| ProtoProgress.CycleProgresses | src/cpu.rs:606-1027 | Inside an instruction every cycle brings the next opcode fetch strictly closer, and at most seven cycles remain. |
| ProtoProgress.FetchStarts | src/cpu.rs:314-603 | A decoded opcode starts an instruction that has between one and seven cycles left. |
| ProtoProgress.ProgressOperand | src/cpu.rs:606-695 | The immediate, zero-page and absolute states move toward the next fetch. A case of the ranking lemma `ProtoProgress.CycleProgresses`. |
| ProtoProgress.ProgressPointer | src/cpu.rs:718-746 | The indirect addressing states move toward the next fetch. A case of the ranking lemma `ProtoProgress.CycleProgresses`. |
| ProtoProgress.ProgressAccess | src/cpu.rs:640-717 | The page-crossing, operate-on-address and write-back states move toward the next fetch. A case of the ranking lemma `ProtoProgress.CycleProgresses`. |
| ProtoProgress.ProgressBranch | src/cpu.rs:747-792 | The accumulator, implied and branch states move toward the next fetch. A case of the ranking lemma `ProtoProgress.CycleProgresses`. |
| ProtoProgress.ProgressBrk | src/cpu.rs:793-834 | Every BRK state moves toward the next fetch. A case of the ranking lemma `ProtoProgress.CycleProgresses`. |
| ProtoProgress.ProgressRti | src/cpu.rs:835-870 | Every RTI state moves toward the next fetch. A case of the ranking lemma `ProtoProgress.CycleProgresses`. |
| ProtoProgress.ProgressRtsStart | src/cpu.rs:871-888 | The first three RTS states move toward the next fetch. A case of the ranking lemma `ProtoProgress.CycleProgresses`. |
| ProtoProgress.ProgressRtsEnd | src/cpu.rs:889-904 | The last two RTS states move toward the next fetch. A case of the ranking lemma `ProtoProgress.CycleProgresses`. |
| ProtoProgress.ProgressPush | src/cpu.rs:905-913 | The push states move toward the next fetch. A case of the ranking lemma `ProtoProgress.CycleProgresses`. |
| ProtoProgress.ProgressPla | src/cpu.rs:929-944 | Every PLA state moves toward the next fetch. A case of the ranking lemma `ProtoProgress.CycleProgresses`. |
| ProtoProgress.ProgressPlp | src/cpu.rs:914-928 | Every PLP state moves toward the next fetch. A case of the ranking lemma `ProtoProgress.CycleProgresses`. |
| ProtoProgress.ProgressJsrStart | src/cpu.rs:945-965 | The first three JSR states move toward the next fetch. A case of the ranking lemma `ProtoProgress.CycleProgresses`. |
| ProtoProgress.ProgressJsrEnd | src/cpu.rs:966-982 | The last two JSR states move toward the next fetch. A case of the ranking lemma `ProtoProgress.CycleProgresses`. |
| ProtoProgress.ProgressJmpAbsolute | src/cpu.rs:983-996 | Both absolute JMP states move toward the next fetch. A case of the ranking lemma `ProtoProgress.CycleProgresses`. |
| ProtoProgress.ProgressJmpPointer | src/cpu.rs:997-1008 | The first two indirect JMP states move toward the next fetch. A case of the ranking lemma `ProtoProgress.CycleProgresses`. |
| ProtoProgress.ProgressJmpIndirect | src/cpu.rs:1009-1020 | The last two indirect JMP states move toward the next fetch. A case of the ranking lemma `ProtoProgress.CycleProgresses`. |
| Ppu.PowerOn | covnes/src/nes/ppu.rs:139-180 | A new PPU is valid, at scanline 0, dot 0 of an even frame with no pending skip, and has V, T, fine X and the write toggle all clear. |
| Ppu.CgramMirrorIdx | covnes/src/nes/ppu.rs:400-411 | Palette entries $10, $14, $18 and $1C share the entries 16 below them; every other index is its own entry. |
| Ppu.PaletteOffset | covnes/src/nes/ppu.rs:372-377 | A palette address selects the entry at its offset from $3F00 modulo 32. |
| Ppu.StatusByte | covnes/src/nes/ppu.rs:321-322 | The $2002 byte carries the three status flags on top and the low five bits of the last value on the data bus. |
| Ppu.BufferedRead | covnes/src/nes/ppu.rs:343-368 | Reads of $2007 (`Ppu.ReadData`) below the palette lag by one: a read returns what the buffer held, and the next read returns the host byte at this read's address; a palette read returns its entry at once while the buffer still takes the host byte underneath. |
| Ppu.RegRead | covnes/src/nes/ppu.rs:318-370 | Every register read keeps the PPU valid and returns the value it leaves on the data bus. |
| Ppu.RegWrite | covnes/src/nes/ppu.rs:222-316 | Every register write keeps the PPU valid and leaves the written value on the data bus. |
| Ppu.CtrlTFields | covnes/src/nes/ppu.rs:246-249 | A $2000 write puts the value's low two bits into T's nametable bits and keeps the rest of T. |
| Ppu.WriteScroll | covnes/src/nes/ppu.rs:263-283 | $2005 writes alternate on the toggle: the first sets coarse X and fine X, the second the Y scroll; V is untouched. |
| Ppu.ScrollXFields | covnes/src/nes/ppu.rs:274-280 | The first $2005 write sets coarse X to the value's top five bits and keeps coarse Y, fine Y and the nametable bits. |
| Ppu.ScrollYFields | covnes/src/nes/ppu.rs:264-270 | The second $2005 write sets coarse Y and fine Y from the value and keeps coarse X and the nametable bits. |
| Ppu.WriteAddr | covnes/src/nes/ppu.rs:284-303 | $2006 writes alternate on the toggle: the first sets T's high six bits and clears bit 14, the second sets T's low byte and copies T into V. |
| Ppu.AddrHighLow | covnes/src/nes/ppu.rs:284-303 | Two $2006 writes leave T holding the 14-bit address the two bytes spell, with the top two bits of the first byte dropped. |
| PpuTick.Tick | covnes/src/nes/ppu.rs:507-732 | A dot keeps every invariant of the PPU: table sizes, 15-bit VRAM addresses, timing in range, secondary OAM address in bounds. |
| PpuTick.Advance | covnes/src/nes/ppu.rs:719-731 | Moving to the next dot keeps the timing in range and leaves the pending skip alone. |
| PpuTick.AtDot | covnes/src/nes/ppu.rs:719-731 | Placing the PPU at a dot of its line keeps it valid. |
| PpuTick.Evaluate | covnes/src/nes/ppu.rs:837-951 | Sprite evaluation changes only the evaluation state, secondary OAM, OAMADDR and the status flags. |
| PpuTick.LoadSprite | covnes/src/nes/ppu.rs:526-571 | Loading a sprite slot whose Y is 240 or more changes nothing; otherwise it records the sprite's X and attributes, counts it and points the fetch address at the right row of its pattern. |
| PpuTick.SpriteFetch | covnes/src/nes/ppu.rs:512-582 | Dots 257-320 change only the fetch address, the sprite slots and the line state, and touch memory only on the two pattern-read steps. |
| PpuTick.SpriteStage | covnes/src/nes/ppu.rs:509-589 | The sprite part of a dot keeps timing, scroll, palette and OAM, changes at most OAMADDR and the status among the registers, and does nothing while rendering is off. |
| PpuTick.RenderLine | covnes/src/nes/ppu.rs:593-692 | A dot of a rendering line advances the timing with the odd-frame skip, keeps control, mask and the pending vblank clear, and zeroes OAMADDR on dots 257-320. |
| PpuRender.Shift | covnes/src/nes/ppu.rs:498-504 | After each pixel the pattern shift registers move left one bit and the attribute shift registers take in their latch bit; nothing else changes. |
| PpuRender.RecordHit | covnes/src/nes/ppu.rs:470-480 | A sprite-zero hit sets that status flag and leaves every other status bit and register alone. |
| PpuRender.Pixel | covnes/src/nes/ppu.rs:413-505 | On a visible dot the pixel stage emits the colour read from the palette for the drawn pixel at (line, dot - 2) and records a sprite-zero hit; elsewhere it emits nothing; both shift the background registers. |
| PpuRender.FetchStep | covnes/src/nes/ppu.rs:612-655 | The background fetch touches memory only on even dots, reading the fetch address, and moves V to the next tile only on dots that are multiples of 8. |
| PpuRender.PixelAndFetch | covnes/src/nes/ppu.rs:612-655 | The pixel stage followed by the fetch step changes only the background state, the status flags and V. |
| PpuRender.LastFetch | covnes/src/nes/ppu.rs:656-661 | Dot 256 moves V to the next row and changes only the background state and the status flags besides. |
| PpuRender.FirstReload | covnes/src/nes/ppu.rs:662-666 | Dot 257 copies the horizontal bits of T into V and changes only the background state and the status flags besides. |
| PpuRender.BackgroundDot | covnes/src/nes/ppu.rs:610-672 | The background work of a dot changes only the background state, the status flags and V. |
| PpuScroll.VScroll | covnes/src/nes/ppu.rs:788-815 | While rendering is off the vertical increment leaves V as it is. |
| PpuSprites.NextSprite | covnes/src/nes/ppu.rs:895-910 | The sprite counter wraps to 0 exactly after sprite 63, which ends the evaluation. |
| PpuSprites.Compare | covnes/src/nes/ppu.rs:858-948 | A comparison step keeps secondary OAM at 32 bytes, its address at most $20, and the latched OAM byte. |
| PpuSprites.OamAddrSplit | covnes/src/nes/ppu.rs:860-948 | OAMADDR packs the sprite number and byte index so that both can be recovered. |
| OldPpu.PowerOn | covnes/src/ppu.rs:90-120 | A new older PPU is valid, at the frame end of an even frame, with every register, scroll register and the write toggle clear. |
| OldPpu.ScrollAddrPairs | covnes/src/ppu.rs:181-221 | Through the older PPU's register port (`OldPpu.RegWrite`) a $2005 pair from a clear toggle sets coarse and fine X and Y and keeps the nametable select and `v`; a $2006 pair sets `v` and `t` to the 14-bit address and keeps fine X; either pair leaves the toggle clear. |
| OldPpu.BufferedRead | covnes/src/ppu.rs:250-275 | The older PPU's $2007 reads (`OldPpu.ReadData`) lag by one in the same way below the palette, and a palette read returns its entry at once while the buffer takes the host byte underneath. |
| OldPpu.RegRead | covnes/src/ppu.rs:236-277 | Every register read returns the value it leaves on the data bus; registers other than $2002, $2004 and $2007 return the last value and change nothing. |
| OldPpu.Pixel | covnes/src/ppu.rs:308-351 | On a visible dot the older PPU emits the palette colour of the background index, greyscale applied; elsewhere nothing; both shift the background registers and change nothing else. The index is `OldPpu.BgIndex`: the current PPU's background index when the background is shown, 0 when hidden. |
| OldPpu.FetchStep | covnes/src/ppu.rs:371-404 | The background fetch touches memory only on even dots, reading the fetch address, and moves V to the next tile only on dots that are multiples of 8. |
| OldPpu.PixelAndFetch | covnes/src/ppu.rs:369-405 | The pixel stage followed by the fetch step changes only the background state and V. |
| OldPpu.LastFetch | covnes/src/ppu.rs:406-410 | Dot 256 moves V to the next row and changes only the background state besides. |
| OldPpu.FirstReload | covnes/src/ppu.rs:411-415 | Dot 257 copies the horizontal bits of T into V and changes only the background state besides. |
| OldPpu.BackgroundDot | covnes/src/ppu.rs:366-419 | The background work of a dot changes only the background state and V. |
| OldPpu.PreRenderClear | covnes/src/ppu.rs:358-364 | Dot 1 of line 261 clears the vblank flag and keeps the other two; every other dot leaves the PPU alone. |
| OldPpu.RenderLine | covnes/src/ppu.rs:355-424 | A dot of a rendering line applies the pre-render clear, does the background work and advances the timing with the odd-frame skip. |
| OldPpu.StartVblank | covnes/src/ppu.rs:426-437 | Dot 1 of line 241 always sets the vblank flag and raises an NMI when enabled; other dots of the line change nothing. |
| OldPpu.Tick | covnes/src/ppu.rs:353-455 | A dot keeps every invariant of the older PPU. |
| OldSystem.InsertCartridge | covnes/src/system.rs:65-67 | Inserting a cartridge changes only the slot. |
| OldSystem.RemoveCartridge | covnes/src/system.rs:69-71 | Removing the cartridge empties the slot and changes nothing else. |
| OldSystem.PerformRead | covnes/src/system.rs:195-197 | A PPU read from the host succeeds exactly when the cartridge serves it and changes nothing. |
| OldSystem.PerformWrite | covnes/src/system.rs:199-201 | A PPU write to the host succeeds exactly when the cartridge accepts it and changes only the cartridge and VRAM. |
| OldSystem.ReadCart | covnes/src/system.rs:166 | A CPU read at $4020 and above is the cartridge's read and changes nothing. |
| OldSystem.WriteCart | covnes/src/system.rs:187-189 | A CPU write at $4020 and above changes only the cartridge, as the cartridge's write does. |
| OldSystem.TickToT1 | covnes/src/system.rs:115-117 | Ticking until the CPU phase, when it does not abort, ends at phase T1. |
| OldSystem.TickCpu | covnes/src/system.rs:113-118 | `tick_cpu`, when it does not abort, ends at phase T1. |
| OldSystemProps.StepContinues | covnes/src/cpu.rs:638 | Only an opcode fetch can stop the CPU; every other cycle continues. |
| OldSystemProps.NmiKeepsAccess | covnes/src/cpu.rs:47-49 | Raising the NMI line in the middle of an operand access changes neither the access nor the CPU state. |
| OldSystemProps.VblankBits | covnes/src/ppu.rs:238-244 | A status byte read with vblank set reports it, and the status it leaves has vblank clear. |
| OldSystemProps.StatusRead | covnes/src/system.rs:155-158 | A CPU read of $2002 is the older PPU's status read and changes only the PPU. |
| OldSystemProps.StatusReadClearsVblank | covnes/src/ppu.rs:238-244 | A CPU cycle reading $2002 while vblank is set returns it and clears it at once, unlike the current PPU's delayed clear. |

## Left out

- Palette colours: `palette::get_rgb` is not part of this model. Pixels carry the palette byte, and the older console takes the colour function as a parameter.
- The CPU operations that covnes/src/nes/mod.rs and dma.rs call but covnes/src/cpu.rs does not define are parameters of `Nes.Env`. These are `poll_interrupts`, `clear_nmi` and `is_write_cycle`.
- The APU: $4000-$4017 other than $4014/$4016/$4017 is modelled as the code treats it (reads 0, writes ignored), with no sound state.
- `step_cpu_instruction` and `step_frame` of covnes/src/nes/mod.rs:111-134 and covnes/src/system.rs:121-146 are not modelled. Each repeats `tick`/`tick_cpu` until the CPU or PPU says so, with no bound the code states. Their single steps are modelled (`Nes.TickCpu`, `OldSystem.TickCpu`). The prototype's `step_cpu_instruction` is modelled (`ProtoSystem.StepInstruction`), because a prototype instruction has a bounded length.
- The tick counters these loops return are Rust `usize`, and their overflow is not modelled.
- The host's pixel buffer indexes with `row * 256 + col` in `u16` (covnes/src/system.rs:88-90, 207-209). The model computes it as an integer. The PPU never emits rows or columns that overflow it.
- File I/O is not modelled: `from_filename`, `BufReader`, short reads and the `CouldNotRead` errors. The parsers take the file's bytes or lines.
- The FM2 zapper (covnes/src/fm2_movie_file.rs:387-389) is `unimplemented!()` and is modelled as an abort.
- FM2 text is modelled as a sequence of Unicode characters. Decoding the file as UTF-8, and refusing invalid bytes, belongs to the file I/O above. The byte length that the gamepad test counts is recovered from the characters by `Fm2Text.Utf8Len`.
- `cfg!(pedantic_af)` checks are not modelled; only the default branches are.
- `println!` debugging output is not modelled.
- Exact per-dot OAM reads of sprite evaluation are not modelled. The code marks them approximate itself (covnes/src/nes/ppu.rs:838-841). The model performs the comparison steps the code performs, on the dots it performs them.
- The "Bad PPU read/write address" panics (covnes/src/nes/ppu.rs:385, 396; covnes/src/ppu.rs:292, 303) cannot be reached, because the address is reduced modulo $4000 first. The model has no such branch.
- The OAM DMA's first read does not start at the correct address on hardware, as the source notes. The model copies the code.
- covnes/src/nes/mappers/uxrom.rs:61 declares `impl Cartridge` where the other mappers use `CartridgeImpl`. It is modelled as the same four operations that mappers/mod.rs forwards to.
- covnes/src/mappers/mod.rs and the older PPU's palette module are not part of this model. Only the older NROM, PPU and console files are.
- The prototype decoder `ProtoCpu.Decode` is stated against the covnes decode table: the same first state, or none. Its converse is not stated, that every opcode missing from the prototype's table panics. The table is shared rather than restated.
- Ppu.RegRead: the contract states only that the returned value is the data-bus latch. What each register does is stated by `Ppu.ReadStatus`, `Ppu.ReadOamData`, `Ppu.ReadData` and the lemmas built on them.
- Ppu.RegWrite: the contract states only validity and the data-bus latch. The per-register effects are stated by `Ppu.CtrlWriteFields`, `Ppu.OamWriteCell`, `Ppu.DataPortIncrement` and the $2005/$2006 pair lemmas.
- PpuTick.Tick: the contract states only that a dot keeps the PPU valid. Its behaviour is stated by `PpuTick.TickAdvances`, `TickStartsVblank`, `TickPreRenderClears`, `OddFrameSkip`, `TickClearsOamAddr` and `StatusReadRace`.
- OldPpu.Tick: the contract states only validity. Its behaviour is stated by `OldPpu.TickSetsVblank`, `TickClearsVblank`, `TickKeepsStatus`, `OddFrameSkip`, `TickAdvances` and `FrameEnd`.
- OldSystem.TickToT1: the contract states only the final phase. The number of ticks is stated by `OldSystemProps.TickToT1Counts`, and the same holds for `OldSystem.TickCpu` with `OldSystemProps.TickCpuCounts`.
- PpuSprites.Compare: the contract states only the bounds it keeps. The comparison's outcomes are stated by the sprite-evaluation lemmas of `PpuSprites`.
- Cpu6502.NextState: a taken branch that crosses a page does its dummy read at the corrected `Cpu6502.BranchFixupAddress`. covnes/src/cpu.rs:819-823 reads at `Cpu6502.BranchFixupAddressAsWritten` instead (see Findings). `Cpu6502.Step` and every bus trace built on it inherit this.
- CpuProps.BranchTakenCrossPage: the dummy read it states is at the corrected address, not at the as-written one of covnes/src/cpu.rs:819-823.
- ProtoCpu.NextPc: a taken branch goes to the corrected `Cpu6502.BranchTarget`. src/cpu.rs:764-770 sends offset 0 back 256 bytes (`ProtoCpu.BranchTargetAsWritten`).
- ProtoCpu.NextState: the dummy read of a page-crossing branch is at the corrected address. src/cpu.rs:774-778 reads at `ProtoCpu.BranchFixupAsWritten`.
- Ppu.WriteOamData: it tests the corrected `Ppu.IsRenderingScanline`, so with rendering on a $2004 write on line 261 is dropped. covnes/src/nes/ppu.rs:201-203 and 257 let that write through (`Ppu.IsRenderingScanlineAsWritten`). `Ppu.RegWrite`, `Ppu.OamWriteCell` and the DMA's OAMDATA writes inherit this.
- Ppu.OamWriteCell: it states the corrected drop of a $2004 write on line 261 with rendering on. There covnes stores the byte at OAMADDR and increments OAMADDR (covnes/src/nes/ppu.rs:201-203, 256-262); the lemma says both stay unchanged.
- PpuTick.LoadSprite: row 8 of an 8x16 sprite is fetched from the lower tile by the corrected `PpuSprites.RowAddr`. covnes/src/nes/ppu.rs:560 fetches it at the upper tile's address + 8 (`PpuSprites.RowAddrAsWritten`). `PpuTick.Tick` inherits this.
- PpuTick.SpriteSlotFetch: the fetch address it states is the corrected `PpuSprites.RowAddr`, not the as-written one of covnes/src/nes/ppu.rs:560.
- SxRom.ReadPpu: 8 KB CHR mode indexes with the corrected `SxRom.ChrIndex`, $1000 per bank number. covnes/src/nes/mappers/sxrom.rs:101 multiplies by $2000 (`SxRom.ChrIndexAsWritten`). `Cartridges.ReadPpu` inherits this.
- SxRom.WritePpu: CHR RAM writes use the corrected `SxRom.ChrIndex`, as reads do. `Cartridges.WritePpu` inherits this.
- SxRom.ChrIndexInBounds: the bound is proved for the corrected `SxRom.ChrIndex`, which the mapper runs. The same bound for the index as written is `SxRom.ChrIndexAsWrittenInBounds`.
- OldPpu.FetchStep: the reload on the first dot of each fetch group is the corrected `PpuRender.Reload`. covnes/src/ppu.rs:462 loads the high attribute latch with `at & 2` (`OldPpu.ReloadAsWritten`). `OldPpu.Tick` inherits this.
- OldPpu.FirstReload: the same corrected `PpuRender.Reload` as `OldPpu.FetchStep`, in place of covnes/src/ppu.rs:462.

## Findings

| source | as written | input that shows it | evidently intended | confidence | as-written member | corrected member |
|---|---|---|---|---|---|---|
| src/cpu.rs:764-770 | A taken branch adds the offset only when `offset as i8 > 0` and otherwise subtracts `256 - offset`, so offset 0 jumps 256 bytes back. | A taken branch with offset $00 at PC $1234 goes to $1134. | A zero offset continues at the next instruction. | high, not executed | `ProtoCpu.BranchTargetAsWritten`, `ProtoCpuProps.BranchTargetAsWrittenZero` | `ProtoCpuProps.TakenBranchTarget` |
| src/cpu.rs:774-778 | The prototype's dummy read of a page-crossing branch is at the old page with the new low byte plus the offset again, as in covnes. | A branch from $10F0 by +$20 lands at $1110; the dummy read is at $1030, not $1010. | The dummy read is at the new low byte in the old page. | medium, not executed | `ProtoCpu.BranchFixupAsWritten`, `ProtoCpuProps.BranchFixupAsWrittenMisses` | `ProtoCpuProps.TakenBranchFixup` |
| src/cpu.rs:85-87 | `get_d` tests the I mask. | P = $08 (D only) reads D clear; P = $04 (I only) reads D set. | `get_d` tests the D mask. | high, not executed | `ProtoCpu.GetDAsWritten`, `ProtoCpuProps.GetDAsWrittenMissesDecimal` | `ProtoCpuProps.GetDReadsDecimal` |
| src/roms.rs:51-53 | The mapper test refuses a file only when both flag bytes have a nonzero mapper nibble. | Flags 6 = $10, flags 7 = $00 (mapper 1) loads as mapper 0. | Refuse any mapper other than 0, as the message says. | high, not executed | `ProtoRoms.FromReadAsWritten`, `ProtoRoms.MapperOneAccepted` | `ProtoRoms.FromRead`, `ProtoRoms.MapperZero` |
| covnes/src/cpu.rs:819-823 | The dummy read of a page-crossing branch is at the old page with the new low byte plus the offset again. | A branch from $10F0 by +$20 lands at $1110; the dummy read is at $1030, not $1010. | The dummy read is at the new low byte in the old page. | medium, not executed | `Cpu6502.BranchFixupAddressAsWritten`, `CpuCycles.BranchFixupAsWrittenMisses` | `Cpu6502.BranchFixupAddress`, `CpuCycles.BranchFixupStaysInPage` |
| covnes/src/ppu.rs:456-463 | `reload_bg_shift` loads the high attribute latch with `at & 2`, which is 0 or 2. | Attribute bits 10 on a fresh tile draw palette entry 1 instead of entry 9. | The latch takes bit 1 itself, `(at & 2) >> 1`, as the current PPU does. | high, not executed | `OldPpu.ReloadAsWritten`, `OldPpu.ReloadAsWrittenMisplacesBit` | `PpuRender.Reload`, `PpuRender.EightShiftsRaiseReload` |
| covnes/src/nes/ppu.rs:201-203 | `is_rendering_scanline` compares the scanline with 321, which is never a scanline. | On line 261 with rendering on, an OAMDATA write goes through. | The pre-render line 261 counts as rendering. | high, not executed | `Ppu.IsRenderingScanlineAsWritten`, `Ppu.RenderingScanlineAsWrittenMissesPreRender` | `Ppu.IsRenderingScanline`, `Ppu.RenderingScanlines` |
| covnes/src/nes/ppu.rs:560 | For 8x16 sprites the lower tile is chosen when `y_offset > 8`. | Row 8 of an 8x16 sprite reads byte 8 of the upper tile (its high plane of row 0), not byte 0 of the lower tile. | `y_offset >= 8` selects the lower tile. | high, not executed | `PpuSprites.RowAddrAsWritten`, `PpuSprites.RowAddrAsWrittenMissesRow8` | `PpuSprites.RowAddr`, `PpuSprites.RowAddrAgreesElsewhere` |
| covnes/src/nes/mappers/sxrom.rs:101 | In 8 KB CHR mode the bank number with bit 0 cleared is multiplied by $2000. | With 16 KB of CHR and bank register 2, the first 8 KB is shown instead of the second. | MMC1 counts the bank in 4 KB units: multiply by $1000. | medium, not executed | `SxRom.ChrIndexAsWritten`, `SxRom.ChrIndexAsWrittenSkipsBanks` | `SxRom.ChrIndex`, `SxRom.EveryChrBankReachable` |
| covnes/src/fm2_movie_file.rs:188 | The binary flag is read from the key "fds", which was already taken out, so it is always false. | A header with `binary 1` is accepted. | Read the flag from "binary" and refuse binary movies. | high, not executed | `Fm2.ReadKeysAsWritten`, `Fm2.ParseAsWritten`, `Fm2.AsWrittenNeverBinary` | `Fm2.ReadKeys`, `Fm2.Parse`, `Fm2.BinaryRefused` |
| covnes/src/fm2_movie_file.rs:265 | Player 4's buttons are parsed from `parts[4]`, player 3's piece. | `|0|........|........|A.......|.B......||` gives player 4 the buttons `A`. | Player 4 is parsed from `parts[5]`. | high, not executed | `Fm2.ParseRecordAsWritten`, `Fm2.AsWrittenCopiesPlayer3` | `Fm2.ParseRecord`, `Fm2.FourscoreRoundTrip` |
