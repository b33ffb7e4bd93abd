# A verified model of a Game Boy (DMG) emulation core

This project models the emulation core of a JavaScript Game Boy emulator in
Dafny and proves what each part promises. The core is:

- the LR35902 CPU (`cpu.js`): registers, flags, ALU helpers, stack,
  interrupt dispatch, HALT and both opcode tables;
- the memory management unit (`memorymanagementunit.js`): the 64 KiB
  address space, the MBC1-style bank controller, banked ROM and external
  RAM, the DIV and TIMA timers, OAM DMA and interrupt requests;
- the pixel processing unit (`pixelprocessingunit.js`): the four-mode
  scanline state machine, STAT and LYC bookkeeping, the per-line scroll
  snapshots and the shade of every pixel of a frame;
- the audio unit (`apu.js`): the 8-step frame sequencer, the NR50, NR51
  and NR52 registers and the routing of register reads and writes;
- the three kinds of sound channel (`PulseChannel.js`, `NoiseChannel.js`,
  `WaveChannel.js`): length counters, envelopes, the frequency sweep, the
  15-bit LFSR and the wave table;
- the joypad (`joypad.js`): the P1 byte.

Each stateful source object is a Dafny `class` whose methods update its
fields in place. Each method is proved to reach the state that a pure
specification function gives. The specification is a datatype holding
the same fields (`CpuState`, `MemState`, `Video`, `Pulse`, `Noise`,
`Wave`, `Audio`). The properties the emulator relies on are lemmas about
those functions. Bytes are `bv8` and 16-bit words `bv16`, so every
`& 0xFF` and `& 0xFFFF` of the source is the wrap-around of the
bit-vector type. Counters, timers and frequencies are unbounded `int`s
with their ranges kept as invariants.

Modules, one per file:

| file | module | contents |
|---|---|---|
| bits.dfy | `Bits` | bytes, words, bit tests, `Option` |
| joypad.dfy | `JoypadInput` | the P1 value and the `Joypad` class |
| mmu.dfy | `MemoryUnit` | `MemState` and the `MemoryManagementUnit` class |
| mmu_facts.dfy | `MemoryFacts` | reads after writes, banking, timers, DMA |
| alu.dfy, alu_facts.dfy | `Alu`, `AluFacts` | the ALU helpers and their flag rules |
| decode.dfy | `Instructions` | the opcode tables as an instruction datatype |
| cpu_spec.dfy, cpu.dfy, cpu_facts.dfy | `CpuSpec`, `Processor`, `CpuFacts` | CPU state, the `Cpu` class, CPU properties |
| ppu_spec.dfy, render.dfy, ppu.dfy, ppu_facts.dfy | `VideoSpec`, `Rendering`, `PixelProcessing`, `VideoFacts` | the scanline machine, pixel shades, the PPU class |
| sound.dfy | `Sound` | envelope step, frequency register halves |
| pulse_spec.dfy, pulse.dfy, pulse_facts.dfy | `PulseSpec`, `PulseUnit`, `PulseFacts` | square-wave channels 1 and 2 |
| noise_spec.dfy, noise.dfy, noise_facts.dfy | `NoiseSpec`, `NoiseUnit`, `NoiseFacts` | the noise channel |
| wave_spec.dfy, wave.dfy, wave_facts.dfy | `WaveSpec`, `WaveUnit`, `WaveFacts` | the wave channel |
| apu_spec.dfy, apu.dfy, apu_facts.dfy | `AudioSpec`, `AudioUnit`, `AudioFacts` | the audio unit |

## Model

| member | source | states |
|---|---|---|
| Bits.Word | cpu.js:61-63 | a pair built from two bytes has exactly those bytes as its high and low halves |
| Bits.WordOfBytes | cpu.js:61-100 | splitting a pair into its bytes and joining them gives the pair back |
| Bits.SetBit | cpu.js:262-277 | setting bit i makes bit i 1 and leaves every other bit as it was |
| Bits.ClearBit | cpu.js:245-260 | clearing bit i makes bit i 0 and leaves every other bit as it was |
| Bits.SignExtend | cpu.js:973 | sign extension keeps the byte as the low half and fills the high half with the sign bit |
| JoypadInput.P1Value | joypad.js:17-39 | with P1 bit 5 clear the low nibble reports A, B, Select and Start (0 = pressed) under 0xC; with bit 5 set and bit 4 clear it reports Right, Left, Up and Down; with both set it is 0xFF |
| JoypadInput.ActionGroupWins | joypad.js:22-29 | when both select bits are clear the action buttons are reported, which differs from the direction view whenever A and Right differ |
| JoypadInput.Joypad.constructor | joypad.js:2-15 | no button is pressed and the cached P1 value is 0xFF |
| JoypadInput.Joypad.Update | joypad.js:17-39 | the cached value becomes the P1 value for the select bits in memory[0xFF00]; the buttons do not change |
| JoypadInput.Joypad.Read | joypad.js:41-43 | `read` returns the cached P1 value, which `Update` sets to the value for the select bits and the constructor sets to 0xFF; nothing is recomputed |
| MemoryUnit.TimerPeriod | memorymanagementunit.js:142-143 | the TIMA period is one of 16, 64, 256 and 1024 cycles |
| MemoryUnit.DivTicksCount | memorymanagementunit.js:133-137 | the DIV loop leaves the counter mod 256 and adds one to DIV for every 256 cycles, mod 256 |
| MemoryUnit.TimaTicks | memorymanagementunit.js:144-153 | the TIMA loop leaves the counter below the period and can only add IF bit 2 |
| MemoryUnit.MemState.CurrentRomBank | memorymanagementunit.js:233-237 | the mapped ROM bank is in 1..127, its low 5 bits are the ROM bank register and its upper bits the RAM bank register |
| MemoryUnit.MemState.CurrentRamBank | memorymanagementunit.js:239-241 | the RAM bank is 0 in mode 0 and the 2-bit RAM bank register in mode 1 |
| MemoryUnit.MemState.RomIndex | memorymanagementunit.js:113-115 | a banked read indexes the ROM at bank * 0x4000 + (address - 0x4000) |
| MemoryUnit.MemState.RamIndex | memorymanagementunit.js:123-125 | an external-RAM access falls inside the 32 KiB of RAM banks |
| MemoryUnit.MemState.Read16 | memorymanagementunit.js:219-223 | `read16bits` is little-endian: low byte at the address, high byte at the next address mod 2^16 |
| MemoryUnit.MemState.Read | memorymanagementunit.js:94-129 | `read8bits`: P1 from the joypad, bank 0 of the cartridge below 0x4000, the selected bank in 0x4000-0x7FFF (0xFF past the image), external RAM in 0xA000-0xBFFF while enabled and 0xFF otherwise, the memory array elsewhere; MemoryFacts.RomIsReadOnly, RomBankSwitch, ExternalRamDisabled and WriteThenRead build on it |
| MemoryUnit.MemState.RequestInterrupt | memorymanagementunit.js:243-245 | exactly bit `bit` is set in IF; every other byte and every other field is unchanged |
| MemoryUnit.DmaSourceUnwritten | memorymanagementunit.js:207-214 | the DMA loop never overwrites a source byte before reading it |
| MemoryUnit.OamDestinationDistinct | memorymanagementunit.js:209-211 | an OAM byte already written is not the source of a later byte |
| MemoryUnit.MemoryManagementUnit.constructor | memorymanagementunit.js:3-18 | zeroed memory and RAM banks, no ROM, ROM bank 1, RAM bank 0, mode 0, RAM disabled, counters 0 |
| MemoryUnit.MemoryManagementUnit.InitializeRomBanks | memorymanagementunit.js:43-92 | the unit reaches `MemState.InitializeRomBanks`: registers reset, memory cleared, the ROM seeded and the post-boot register values stored |
| MemoryUnit.MemoryManagementUnit.ClearMemory | memorymanagementunit.js:51-52 | every byte of memory becomes 0 |
| MemoryUnit.MemoryManagementUnit.LoadRomImage | memorymanagementunit.js:54-56 | memory holds the first min(length, 0x8000) ROM bytes from address 0 and zero elsewhere |
| MemoryUnit.MemoryManagementUnit.SeedTimerDefaults | memorymanagementunit.js:58-62 | TIMA, TMA, TAC and DIV are set to their post-boot value 0 |
| MemoryUnit.MemoryManagementUnit.SeedSoundDefaults | memorymanagementunit.js:63-81 | the sound registers get their post-boot values |
| MemoryUnit.MemoryManagementUnit.SeedVideoDefaults | memorymanagementunit.js:82-91 | the video registers and IE get their post-boot values |
| MemoryUnit.MemoryManagementUnit.Write8 | memorymanagementunit.js:159-217 | the unit reaches `MemState.Write` of the old state |
| MemoryUnit.MemoryManagementUnit.Read8 | memorymanagementunit.js:94-129 | the unit reads what `MemState.Read` gives for its state, and P1 is the joypad's `read` |
| MemoryUnit.MemoryManagementUnit.WriteControl | memorymanagementunit.js:166-183 | the unit reaches the controller-register write of the old state |
| MemoryUnit.MemoryManagementUnit.WriteExternalRam | memorymanagementunit.js:185-193 | the unit reaches the external-RAM write of the old state |
| MemoryUnit.MemoryManagementUnit.WriteMemory | memorymanagementunit.js:195-216 | the unit reaches the write to memory, DIV, the timer registers or DMA of the old state |
| MemoryUnit.MemoryManagementUnit.OamDmaTransfer | memorymanagementunit.js:207-214 | the copy loop leaves memory equal to the DMA copy computed from the old state |
| MemoryUnit.MemoryManagementUnit.DmaCopyByte | memorymanagementunit.js:209-212 | one pass of the DMA loop extends the copied prefix of OAM by one byte |
| MemoryUnit.MemoryManagementUnit.Write16 | memorymanagementunit.js:225-231 | the unit reaches `MemState.Write16`: the low byte, then the high byte at the next address |
| MemoryUnit.MemoryManagementUnit.RequestInterrupt | memorymanagementunit.js:243-245 | memory changes only in IF, which gains bit `bit` |
| MemoryUnit.MemoryManagementUnit.Step | memorymanagementunit.js:131-157 | the unit reaches `MemState.Step`: the DIV loop, then the TIMA loop |
| MemoryUnit.MemoryManagementUnit.StepDiv | memorymanagementunit.js:133-137 | the unit reaches the DIV loop's state |
| MemoryUnit.MemoryManagementUnit.TimaTick | memorymanagementunit.js:147-152 | one TIMA tick reloads TMA and sets IF bit 2 from 0xFF, and adds one otherwise |
| MemoryUnit.MemoryManagementUnit.StepTimer | memorymanagementunit.js:139-156 | the unit reaches `MemState.StepTimer` of the old state |
| MemoryFacts.ControlWriteEffect | memorymanagementunit.js:166-183 | a write below 0x8000 sets only one controller register (RAM enable iff the low nibble is 0xA, 5-bit ROM bank with 0 as 1, 2-bit RAM bank, 1-bit mode) and never memory, ROM or RAM |
| MemoryFacts.PlainWriteEffect | memorymanagementunit.js:200-216 | a write to video RAM, work RAM, OAM, I/O or high RAM (other than P1, DIV and DMA) stores the byte there and changes nothing else but, for TAC, the timer counter |
| MemoryFacts.WriteThenRead | memorymanagementunit.js:128 | reading a plain address right after writing it returns the value written |
| MemoryFacts.WriteElsewhere | memorymanagementunit.js:216 | a plain write leaves the reads of every other address unchanged |
| MemoryFacts.Write16ThenRead16 | memorymanagementunit.js:219-231 | `read16bits` after `write16bits` at plain addresses returns the word |
| MemoryFacts.RomIsReadOnly | memorymanagementunit.js:105-107 | with a ROM loaded, no write below 0x8000 changes what 0x0000-0x3FFF reads |
| MemoryFacts.RomBankSwitch | memorymanagementunit.js:109-117 | after writing n to 0x2000-0x3FFF (RAM bank bits 0), 0x4000-0x7FFF reads ROM bank n & 0x1F (0 as 1), or 0xFF past the end of the ROM |
| MemoryFacts.ExternalRamDisabled | memorymanagementunit.js:119-122 | while external RAM is disabled its reads give 0xFF and its writes change nothing |
| MemoryFacts.ExternalRamRoundTrip | memorymanagementunit.js:185-193 | after enabling the RAM with 0x0A, reading an external-RAM address returns the byte written there |
| MemoryFacts.TimerRegisterWrites | memorymanagementunit.js:195-206 | a DIV write zeroes DIV and its counter; TIMA, TMA and TAC store the value and only TAC zeroes the timer counter |
| MemoryFacts.TimerStopped | memorymanagementunit.js:154-156 | with TAC bit 2 clear the timer step only zeroes the timer counter |
| MemoryFacts.DivCount | memorymanagementunit.js:133-137 | DIV grows by the number of 256-cycle boundaries crossed by the 16-bit counter, mod 256 |
| MemoryFacts.TimaTicksCount | memorymanagementunit.js:144-153 | k whole periods without overflow add k to TIMA and leave IF and the remainder alone |
| MemoryFacts.TimaOverflow | memorymanagementunit.js:147-149 | a tick from 0xFF reloads TMA and sets IF bit 2 |
| MemoryFacts.TimerCount | memorymanagementunit.js:139-153 | with the timer enabled, a step whose cycles plus the counter make k whole periods of [1024, 16, 64, 256][TAC & 3] (and a remainder) adds k to TIMA when that does not overflow, leaves IF alone and keeps the remainder |
| MemoryFacts.TimerInterrupt | memorymanagementunit.js:145-149 | one period from TIMA = 0xFF loads TMA and requests the timer interrupt |
| MemoryFacts.OamStoreContents | memorymanagementunit.js:209-212 | the first `count` OAM bytes hold the source bytes and nothing outside them changes |
| MemoryFacts.DmaCopy | memorymanagementunit.js:207-214 | a write of v to 0xFF46 puts `read8bits((v << 8) + k)` at 0xFE00 + k for k < 160 and leaves every other byte, 0xFF46 included, unchanged |
| MemoryFacts.PowerUp | memorymanagementunit.js:43-92 | after loading a ROM: bank 1, RAM disabled, the fixed bank reads the ROM, the banked area reads the ROM or 0xFF past its end, external RAM reads 0xFF, LCDC 0x91, STAT 0x85, NR52 0xF1 |
| Alu.SetFlags | cpu.js:109-146 | each flag setter changes only its own bit of F, so the low nibble of F is kept |
| Alu.CarryIn | cpu.js:161 | the carry brought into ADC and SBC is 1 exactly when C is set |
| Alu.Add | cpu.js:151-158 | Z iff the 8-bit sum is 0, N clear, H iff the low nibble carried, C iff the sum wrapped |
| Alu.Adc | cpu.js:160-168 | Z iff the result is 0, N clear, C iff the sum with the carry wrapped |
| AluFacts.AdcHalfCarry | cpu.js:165 | ADC's H includes the incoming carry in the low-nibble test |
| Alu.Sub | cpu.js:170-177 | Z iff the difference is 0, N set, C iff a < b, H iff the low nibble borrowed |
| Alu.Sbc | cpu.js:179-187 | Z iff the result is 0, N set, C iff a < b + carry |
| AluFacts.SbcHalfCarry | cpu.js:184 | SBC's H includes the incoming carry in the low-nibble borrow |
| Alu.And | cpu.js:189-196 | each bit of the result is set iff it is set in both operands; Z iff the result is 0, N clear, H set, C clear |
| Alu.Or | cpu.js:198-205 | each bit of the result is set iff it is set in either operand; only Z can be set, iff both are 0 |
| Alu.Xor | cpu.js:207-214 | xor with the second operand gives back the first; only Z can be set, iff the operands are equal |
| Alu.Cp | cpu.js:216-222 | CP sets the same flags as SUB, and Z iff the operands are equal |
| Alu.Inc | cpu.js:287-293 | the value grows by one mod 256; Z iff it wrapped to 0, N clear, H iff the low nibble was 0xF, C unchanged |
| Alu.Dec | cpu.js:295-301 | the value drops by one mod 256; Z iff it was 1, N set, H iff the low nibble was 0, C unchanged |
| AluFacts.IncIsAddOne | cpu.js:287-293 | INC is ADD 1 with the carry flag kept |
| AluFacts.DecIsSubOne | cpu.js:295-301 | DEC is SUB 1 with the carry flag kept |
| AluFacts.SubUndoesAdd | cpu.js:151-177 | subtracting what was added gives the first operand back |
| Alu.Add16 | cpu.js:279-285 | the 16-bit sum wraps mod 2^16, Z is kept, N is cleared, H is the carry out of bit 11 and C the carry out of bit 15 (the sum wrapped) |
| Alu.AddSigned | cpu.js:971-981 | SP plus a sign-extended byte, with H and C from the low nibble and low byte of SP and the unsigned byte, Z and N clear |
| Alu.Shift | cpu.js:1304-1782 | each rotate or shift gives its value as 8-bit arithmetic (RLC 2x plus the old bit 7, RRC x/2 plus bit 0 moved to bit 7, RL/RR with the old carry in, SLA 2x, SRA x/2 keeping bit 7, SWAP the nibbles exchanged, SRL x/2); C is the bit shifted out and Z iff the result is 0 |
| AluFacts.RotateRoundTrip | cpu.js:1304-1419 | RRC undoes RLC and RLC undoes RRC |
| AluFacts.RotateThroughCarryRoundTrip | cpu.js:1420-1551 | RR with the carry RL produced undoes RL, and the other way round, carry included |
| AluFacts.SwapInvolution | cpu.js:1668-1725 | SWAP twice gives the byte back |
| Alu.RotateA | cpu.js:1006-1035 | RLCA, RLA, RRCA and RRA give the CB rotation's value with Z cleared |
| Alu.Daa | cpu.js:1205-1229 | DAA clears H, keeps N, sets Z iff the result is 0, never clears a set carry, and after a subtraction leaves C as it was |
| AluFacts.DaaAfterAdd | cpu.js:1205-1229 | DAA after adding two BCD bytes gives the BCD digits of the decimal sum and C iff the sum exceeds 99 |
| AluFacts.DaaNoCarries | cpu.js:1205-1229 | the BCD case where no digit carries |
| AluFacts.DaaTensCarry | cpu.js:1205-1229 | the BCD case where only the tens digit carries |
| AluFacts.DaaUnitsCarry | cpu.js:1205-1229 | the BCD case where only the units digit carries |
| AluFacts.DaaBothCarries | cpu.js:1205-1229 | the BCD case where both digits carry |
| Alu.BitFlags | cpu.js:224-243 | BIT sets Z iff the bit is 0, clears N, sets H and keeps C |
| Instructions.RegOf | cpu.js:229-238 | the 3-bit operand field names a register whose code is that field |
| Instructions.PairOf | cpu.js:631-655 | the pair field of loads and 16-bit arithmetic never names AF |
| Instructions.StackPairOf | cpu.js:658-681 | the pair field of PUSH and POP never names SP |
| Instructions.Decode | cpu.js:388-1289 | the case layout of `executeOperation`: 0x76 alone is HALT inside the register loads 0x40-0x7F, 0x80-0xBF are the accumulator operations on a register, 0xCB alone is the prefix, RST n jumps to n, and exactly the eleven opcodes 0xD3, 0xDB, 0xDD, 0xE3, 0xE4, 0xEB, 0xEC, 0xED, 0xF4, 0xFC, 0xFD reach the default case |
| Instructions.DecodeCb | cpu.js:1291-1832 | the case layout of `executeCbOperation`: the operand is bits 2-0, 0x00-0x3F shift, 0x40-0x7F BIT, 0x80-0xBF RES, 0xC0-0xFF SET, the bit number is bits 5-3, and no opcode reaches the default case |
| CpuSpec.CpuState.Set16 | cpu.js:65-100 | a pair setter makes the pair read back the value; the AF setter keeps only bits 7-4 of F; memory, PC and the latches are untouched |
| CpuSpec.CpuState.Set8 | cpu.js:394-581 | writing a register other than (HL) makes it read back the value and leaves memory alone; nothing but the seven registers and memory can change |
| CpuSpec.CpuState.WithFlags | cpu.js:109-146 | after the flag setters the four flags read back as set |
| CpuSpec.CpuState.Immediate16 | cpu.js:324-328 | the 16-bit immediate is little-endian at PC and PC + 1 |
| CpuSpec.CpuState.PushByte | cpu.js:303-307 | pushing a byte lowers SP by one mod 2^16 and changes only memory besides |
| CpuSpec.CpuState.Push | cpu.js:303-308 | a push lowers SP by 2 mod 2^16 and changes only memory besides |
| CpuSpec.CpuState.PopByte | cpu.js:310-314 | popping a byte raises SP by one mod 2^16 |
| CpuSpec.CpuState.Top | cpu.js:310-316 | the popped word has the byte at SP as its low half and the byte at SP + 1 as its high half |
| CpuSpec.CpuState.Popped | cpu.js:310-316 | a pop raises SP by 2 mod 2^16 and changes nothing else |
| CpuSpec.Reset | cpu.js:8-26 | reset leaves F = 0xB0, SP = 0xFFFE, PC = 0x0100, not halted, IME clear |
| CpuSpec.Execute | cpu.js:388-1289 | every opcode either runs its case, keeping F's low nibble 0, or is one with no case, which changes nothing and reports the opcode |
| CpuSpec.ExecuteMisc | cpu.js:392-393 | NOP changes nothing, HALT sets `halted`, STOP sets `halted` and skips one byte, DI and EI clear and set IME, each in 4 cycles; the CB prefix runs the CB table on the byte at PC; a byte with no case is reported unchanged |
| CpuSpec.ExecuteCb | cpu.js:1291-1832 | every CB opcode is implemented and keeps the state valid |
| CpuSpec.Vector | cpu.js:371 | interrupt i jumps to 0x40 + 8 * i |
| CpuSpec.InterruptBits | cpu.js:372-373 | some bit 0-4 is pending iff the pending byte & 0x1F is non-zero |
| CpuSpec.LowestFrom | cpu.js:372-373 | the loop picks the lowest pending bit |
| CpuSpec.Service | cpu.js:374-381 | servicing interrupt i jumps to its vector and pushes PC, lowering SP by 2 |
| CpuSpec.Acknowledge | cpu.js:375-376 | acknowledging changes only memory |
| CpuSpec.HandleInterrupts | cpu.js:351-386 | an interrupt is serviced iff IME is set and one of bits 0-4 is pending in IE & IF; when nothing is serviced only `halted` changes, cleared when an interrupt is pending |
| CpuSpec.ServicedState | cpu.js:369-381 | when serviced, the state is that of servicing the lowest pending interrupt with HALT and IME cleared |
| CpuSpec.HandleInterruptsAsWritten | cpu.js:351-386 | the dispatch as written services only with IME set and a pending bit 0-4 |
| CpuSpec.Step | cpu.js:334-349 | one `executeStep` with the intended dispatch keeps the state valid; the cycle counts are those of `Continue` |
| CpuSpec.StepAsWritten | cpu.js:334-386 | the source's `executeStep`: equal to `Step` whenever bits 5-7 of IE & IF are clear, 4 cycles with nothing changed when halted with IE & IF zero, and with only bits 5-7 pending it clears HALT and IME and runs the opcode at PC (see CpuFacts.StepsAgree and AsWrittenWakesOnHighBits) |
| CpuSpec.Continue | cpu.js:337-348 | after the dispatch: 20 cycles when an interrupt was serviced, otherwise 4 cycles with nothing changed while halted, otherwise the opcode at PC runs with PC past it |
| CpuFacts.PushBytes | cpu.js:303-308 | a push stores the high byte at SP - 1 and the low byte at SP - 2 |
| CpuFacts.PushedBytes | cpu.js:303-316 | the bytes a push stores are the ones the pops read back |
| CpuFacts.PushPopRoundTrip | cpu.js:303-316 | over ordinary RAM, `pop16bits` after `push16bits` returns the pushed word and restores SP |
| CpuFacts.PushThenPop | cpu.js:658-681 | PUSH rr then POP qq copies rr into qq and restores SP |
| CpuFacts.PushThenJump | cpu.js:1105-1109 | a call's pushed return address is what the next pop reads |
| CpuFacts.PushReadsElsewhere | cpu.js:303-308 | a push changes no read outside its two stack bytes |
| CpuFacts.IncrementPairKeepsFlags | cpu.js:982-993 | 16-bit INC adds one mod 2^16 and changes neither F nor A |
| CpuFacts.DecrementPairKeepsFlags | cpu.js:994-1005 | 16-bit DEC subtracts one mod 2^16 and changes neither F nor A |
| CpuFacts.IncDecKeepCarry | cpu.js:898-947 | 8-bit INC and DEC never change C |
| CpuFacts.AddToHlKeepsZero | cpu.js:959-970 | ADD HL,rr keeps Z and leaves HL + rr in HL |
| CpuFacts.CompareKeepsAccumulator | cpu.js:850-873 | CP leaves A unchanged and sets the flags of SUB |
| CpuFacts.BitTest | cpu.js:1785-1798 | BIT changes only F: Z iff the bit is 0, N clear, H set, C kept |
| CpuFacts.ResetBitEffect | cpu.js:1800-1813 | RES clears the chosen bit of the chosen register and changes no other bit, flag, memory, PC or SP |
| CpuFacts.SetBitEffect | cpu.js:1815-1828 | SET sets the chosen bit of the chosen register and changes no other bit, flag, memory, PC or SP |
| CpuFacts.UnimplementedOpcodes | cpu.js:1286-1287 | the opcodes with no case are exactly 0xD3, 0xDB, 0xDD, 0xE3, 0xE4, 0xEB, 0xEC, 0xED, 0xF4, 0xFC and 0xFD |
| CpuFacts.HaltedStep | cpu.js:341-344 | a halted CPU with no interrupt 0-4 pending takes 4 cycles and changes nothing; the step as written does the same when IE & IF is 0 |
| CpuFacts.FetchStep | cpu.js:346-348 | not halted and with no interrupt 0-4 pending, one opcode byte is fetched at PC, PC advances mod 2^16 and the opcode runs; the step as written does the same when IE & IF is 0 or IME is clear |
| CpuFacts.UnimplementedStep | cpu.js:1286-1287 | fetching 0xD3 reports the opcode as unimplemented with PC past it |
| CpuFacts.InterruptServiced | cpu.js:351-386 | with IME set and a pending interrupt, the lowest one is serviced: PC at its vector, SP lowered by 2, IME and HALT cleared, 20 cycles |
| CpuFacts.LowestPending | cpu.js:372-373 | the serviced bit is pending and no lower bit is |
| CpuFacts.AcknowledgeClears | cpu.js:375-376 | acknowledging clears exactly bit i of IF |
| CpuFacts.ServiceAcknowledges | cpu.js:374-378 | after servicing, IF has bit i cleared and no other change |
| CpuFacts.ServicePushesPc | cpu.js:378-379 | the pushed return address is the old PC |
| CpuFacts.AsWrittenLosesIme | cpu.js:351-386 | see Findings: with only IE & IF bits 5-7 pending, the dispatch as written clears IME and HALT and services nothing |
| CpuFacts.CorrectedKeepsIme | cpu.js:351-386 | the corrected dispatch changes nothing in that case |
| CpuFacts.DispatchesAgree | cpu.js:351-386 | without bits 5-7 pending both dispatches agree |
| CpuFacts.StepsAgree | cpu.js:334-386 | without bits 5-7 pending in IE & IF, the step as written and the intended step give the same outcome |
| CpuFacts.AsWrittenWakesOnHighBits | cpu.js:351-386 | as written, a request in bits 5-7 alone ends HALT and clears IME, and the opcode at PC is fetched and executed although nothing is serviced |
| Processor.Cpu.constructor | cpu.js:3-6 | the new CPU holds the reset values |
| Processor.Cpu.Reset | cpu.js:8-26 | the fields become `CpuSpec.Reset` of the memory |
| Processor.Cpu.SetPair | cpu.js:65-100 | the fields reach `Set16` of the old state |
| Processor.Cpu.SetBC | cpu.js:76-81 | the BC setter reaches `Set16(BC, v)` |
| Processor.Cpu.SetDE | cpu.js:87-92 | the DE setter reaches `Set16(DE, v)` |
| Processor.Cpu.SetHL | cpu.js:98-103 | the HL setter reaches `Set16(HL, v)` |
| Processor.Cpu.SetAF | cpu.js:65-70 | the AF setter masks F with 0xF0 |
| Processor.Cpu.IncreaseProgramCounter | cpu.js:330-332 | PC grows by one mod 2^16 |
| Processor.Cpu.FetchImmediate8 | cpu.js:318-322 | returns the byte at PC and advances PC by one |
| Processor.Cpu.FetchImmediate16 | cpu.js:324-328 | returns the little-endian word at PC and advances PC by two |
| Processor.Cpu.Push16 | cpu.js:303-308 | the fields reach `Push` of the old state |
| Processor.Cpu.Pop16 | cpu.js:310-316 | returns `Top` and the fields reach `Popped` |
| Processor.Cpu.HandleInterrupts | cpu.js:351-386 | the fields reach the corrected `HandleInterrupts`; 20 is returned iff an interrupt was serviced, -1 otherwise |
| Processor.Cpu.WakeAndDispatch | cpu.js:361-385 | with an interrupt 0-4 pending, the rest of the dispatch reaches the corrected `HandleInterrupts` |
| Processor.Cpu.ServiceInterrupt | cpu.js:374-381 | the fields reach `Service`: acknowledge, push PC, jump to the vector |
| Processor.Cpu.AcknowledgeInterrupt | cpu.js:375-376 | the fields reach `Acknowledge` |
| Processor.Cpu.ServiceLowest | cpu.js:372-383 | the loop services the lowest pending interrupt |
| Processor.Cpu.ExecuteOperation | cpu.js:388-1289 | the fields reach `Execute` of the old state; the cycle count is the case's, or the opcode is reported unimplemented |
| Processor.Cpu.ExecuteStep | cpu.js:334-349 | the fields reach `CpuSpec.Step`: interrupts, then HALT, then one opcode |
| VideoSpec.Budget | pixelprocessingunit.js:74-77 | every mode has a positive budget: 80, 172, 204 and 456 |
| VideoSpec.ModeBits | pixelprocessingunit.js:147 | STAT's mode bits are the mode number |
| VideoSpec.Request | memorymanagementunit.js:243-245 | an interrupt request changes only memory |
| VideoSpec.SampleLine | pixelprocessingunit.js:181-186 | sampling changes only the snapshots |
| VideoSpec.UpdateStatMode | pixelprocessingunit.js:145-168 | the clock and mode fields are untouched |
| VideoSpec.CheckLyc | pixelprocessingunit.js:170-179 | the clock, mode and snapshots are untouched |
| VideoSpec.EndOamSearch | pixelprocessingunit.js:83-91 | mode 2 moves to mode 3, using up 80 cycles |
| VideoSpec.EndDrawing | pixelprocessingunit.js:92-100 | mode 3 moves to mode 0, using up 172 cycles |
| VideoSpec.NextLine | pixelprocessingunit.js:104-105 | LY becomes LY + 1 mod 256 |
| VideoSpec.EndHBlank | pixelprocessingunit.js:101-122 | mode 0 ends after 204 cycles in mode 1 after line 143 and in mode 2 otherwise |
| VideoSpec.EndVBlankLine | pixelprocessingunit.js:123-140 | a VBlank line takes 456 cycles; after line 153 mode 2 begins |
| VideoSpec.Transition | pixelprocessingunit.js:82-141 | each pass of the loop subtracts the current mode's positive budget |
| VideoSpec.Run | pixelprocessingunit.js:79-142 | the loop ends with the clock below the current mode's budget |
| VideoSpec.Step | pixelprocessingunit.js:51-143 | after `step` the clock is below the current mode's budget |
| VideoSpec.LcdOff | pixelprocessingunit.js:55-61 | with the LCD off the clock is 0 and the mode 0 |
| VideoSpec.Reset | pixelprocessingunit.js:24-31 | reset leaves the clock at 0 in mode 2 |
| VideoFacts.StatWithModeBits | pixelprocessingunit.js:146-150 | the new STAT has the mode in bits 0-1, bit 2 cleared when asked, bits 3-7 kept |
| VideoFacts.UpdateStatModeEffect | pixelprocessingunit.js:145-168 | `updateStatMode` changes only STAT bits 0-2 and IF, raising IF bit 1 iff STAT enables the new mode's interrupt (bit 5 for mode 2, 3 for mode 0, 4 for mode 1) |
| VideoFacts.UpdateStatModeMemory | pixelprocessingunit.js:145-168 | memory after `updateStatMode` is the new STAT plus, when enabled, IF bit 1 |
| VideoFacts.UpdateStatModeStat | pixelprocessingunit.js:146-151 | STAT is replaced by the mode-updated STAT |
| VideoFacts.UpdateStatModeFlags | pixelprocessingunit.js:160-167 | IF gains bit 1 iff STAT enables the new mode's interrupt |
| VideoFacts.UpdateStatModeKeepsLy | pixelprocessingunit.js:145-168 | LY is not changed |
| VideoFacts.UpdateStatModeSnapshots | pixelprocessingunit.js:153-158 | entering mode 2 on a line below 144 snapshots that line's SCX and SCY; nothing else is sampled |
| VideoFacts.CheckLycEffect | pixelprocessingunit.js:170-179 | STAT bit 2 is set iff LY equals LYC, no other STAT bit changes, and IF bit 1 is requested only on a match with STAT bit 6 set |
| VideoFacts.SampleLineEffect | pixelprocessingunit.js:181-186 | only index ly of the snapshots is written, and only when ly < 154 |
| VideoFacts.StepSamplesCurrentLine | pixelprocessingunit.js:63-69 | in mode 2 on a line below 144, `step` snapshots that line's scroll registers |
| VideoFacts.LcdOffStep | pixelprocessingunit.js:52-61 | with LCDC bit 7 clear `step` sets the clock, mode, LY and STAT bits 0-2 to 0, keeps STAT bits 3-7, and raises IF bit 1 iff STAT bit 3 is set |
| VideoFacts.OamSearchEnds | pixelprocessingunit.js:83-91 | after 80 cycles mode 2 becomes mode 3 on the same line |
| VideoFacts.DrawingEnds | pixelprocessingunit.js:92-100 | after 172 cycles mode 3 becomes mode 0 on the same line |
| VideoFacts.LineEndLy | pixelprocessingunit.js:104-106 | the end of a line advances LY by one |
| VideoFacts.HBlankEnds | pixelprocessingunit.js:101-122 | after 204 cycles LY advances; line 144 enters mode 1 and requests the VBlank interrupt (IF bit 0), other lines enter mode 2 |
| VideoFacts.VBlankLineEnds | pixelprocessingunit.js:123-140 | every 456 cycles in mode 1 LY advances, and after 153 wraps to 0 in mode 2 |
| VideoFacts.FrameRestarts | pixelprocessingunit.js:127-132 | the VBlank line that ends line 153 returns LY to 0 |
| VideoFacts.FirstLineLy | pixelprocessingunit.js:129-130 | restarting the frame sets LY to 0 |
| VideoFacts.TransitionKeepsLines | pixelprocessingunit.js:82-141 | every transition keeps LY in 0-153 and the mode VBlank exactly on lines 144-153 |
| VideoFacts.RunKeepsLines | pixelprocessingunit.js:79-142 | the loop keeps LY in 0-153 and VBlank exactly on lines 144-153 |
| VideoFacts.StepKeepsLines | pixelprocessingunit.js:51-143 | `step` keeps LY in 0-153 and VBlank exactly on lines 144-153 |
| VideoFacts.TransitionKeepsLcdc | pixelprocessingunit.js:82-141 | no pass of the loop changes LCDC |
| VideoFacts.VBlankDraws | pixelprocessingunit.js:101-122 | when the clock runs out within the first VBlank line, the picture after the loop is the frame of the state entering VBlank, with the LCD on, whatever was shown before |
| VideoFacts.RunNeverBlanks | pixelprocessingunit.js:79-142 | with the LCD on, the loop either leaves the picture unchanged or shows a full 144-row frame, never white |
| VideoFacts.StepNeverBlanks | pixelprocessingunit.js:51-143 | a `step` either leaves the picture unchanged or shows a full frame drawn with the LCD on |
| VideoFacts.ResetState | pixelprocessingunit.js:24-31 | reset gives clock 0, mode 2, LY 0, STAT bits 0-2 = 2, and zeroed snapshots for every line but line 0 |
| Rendering.Signed | pixelprocessingunit.js:235 | `(index << 24) >> 24` reads the tile index as a two's-complement byte |
| Rendering.TileDataAddress | pixelprocessingunit.js:227-237 | tile data at 0x8000 + 16 * index with LCDC bit 4 set, otherwise 0x9000 + 16 * signed(index), always inside 0x8000-0x97FF |
| Rendering.ColorIndex | pixelprocessingunit.js:245-247 | the colour index is the second byte's bit then the first byte's bit, 0 iff both are clear |
| Rendering.Shade | pixelprocessingunit.js:308-311 | a palette gives a shade 0-3 |
| Rendering.SpriteHeight | pixelprocessingunit.js:204 | sprites are 16 pixels high with LCDC bit 2 set and 8 otherwise |
| Rendering.SpriteShade | pixelprocessingunit.js:299-303 | a sprite colour goes through OBP1 when attribute bit 4 is set and OBP0 otherwise, giving a shade 0-3 |
| Rendering.BackgroundIndex | pixelprocessingunit.js:210-247 | the background or window colour index is in 0-3 |
| Rendering.SpriteTile | pixelprocessingunit.js:265-268 | in 8x16 mode the tile index has bit 0 cleared |
| Rendering.SpriteColor | pixelprocessingunit.js:255-286 | a sprite gives colour 0 where it does not cover the pixel |
| Rendering.SpriteScan | pixelprocessingunit.js:253-304 | the sprite scan yields a shade 0-3 or leaves the background |
| Rendering.PixelShade | pixelprocessingunit.js:205-311 | every pixel gets a shade in 0-3 |
| Rendering.RowShadesAt | pixelprocessingunit.js:208-318 | entry x of a row is the shade of pixel (x, y) |
| Rendering.Frame | pixelprocessingunit.js:205-321 | the frame has 144 rows, and row y holds the shades of line y drawn with the scroll values sampled for line y |
| VideoFacts.TransparentSpritesSkipped | pixelprocessingunit.js:288-291 | sprites with colour 0 at the pixel are skipped |
| VideoFacts.FirstOpaqueSpriteDecides | pixelprocessingunit.js:253-311 | the first sprite in OAM order with a non-zero colour decides: behind a non-zero background (attribute bit 7) the background shade stays, otherwise its colour through OBP1 (attribute bit 4) or OBP0 |
| VideoFacts.BackgroundShows | pixelprocessingunit.js:308-311 | with sprites off or none opaque at the pixel, the pixel shows the background through BGP |
| PixelProcessing.PixelProcessingUnit.constructor | pixelprocessingunit.js:3-22 | clock 0, mode 2, zeroed snapshots |
| PixelProcessing.PixelProcessingUnit.Reset | pixelprocessingunit.js:24-31 | the unit reaches `VideoSpec.Reset` of the old state |
| PixelProcessing.PixelProcessingUnit.Step | pixelprocessingunit.js:51-143 | the unit reaches `VideoSpec.Step` of the old state, and the canvas shows `StepPicture`: the frame drawn at the last entry into VBlank during the step, or the old picture if there was none |
| PixelProcessing.PixelProcessingUnit.Advance | pixelprocessingunit.js:82-141 | one pass of the loop reaches `Transition`; the pass that ends line 143 draws the frame from the state it leaves, and every other pass leaves the picture alone |
| PixelProcessing.PixelProcessingUnit.TurnOff | pixelprocessingunit.js:52-61 | the unit reaches `LcdOff` |
| PixelProcessing.PixelProcessingUnit.SampleCurrentLine | pixelprocessingunit.js:63-69 | the unit reaches `VideoSpec.SampleCurrentLine` |
| PixelProcessing.PixelProcessingUnit.EndOamSearch | pixelprocessingunit.js:83-91 | the unit reaches `VideoSpec.EndOamSearch` |
| PixelProcessing.PixelProcessingUnit.EndDrawing | pixelprocessingunit.js:92-100 | the unit reaches `VideoSpec.EndDrawing` |
| PixelProcessing.PixelProcessingUnit.BeginVBlank | pixelprocessingunit.js:108-113 | the unit reaches `VideoSpec.BeginVBlank` |
| PixelProcessing.PixelProcessingUnit.BeginLine | pixelprocessingunit.js:114-118 | the unit reaches `VideoSpec.BeginLine` |
| PixelProcessing.PixelProcessingUnit.RestartLines | pixelprocessingunit.js:127-132 | the unit reaches `FirstLine`: LY 0, compared with LYC |
| PixelProcessing.PixelProcessingUnit.EndHBlank | pixelprocessingunit.js:101-122 | the unit reaches `VideoSpec.EndHBlank`; after line 143 the frame is drawn from the state entering VBlank, otherwise the picture is unchanged |
| PixelProcessing.PixelProcessingUnit.CloseLine | pixelprocessingunit.js:104-118 | LY moves on and is compared with LYC, then VBlank or the next line's OAM search begins; the frame is drawn only when VBlank begins |
| PixelProcessing.PixelProcessingUnit.NextMode | pixelprocessingunit.js:108-118 | line 144 begins VBlank, raises the VBlank interrupt and draws the frame from the resulting state; any other line begins its OAM search and leaves the picture unchanged |
| PixelProcessing.PixelProcessingUnit.EndVBlankLine | pixelprocessingunit.js:123-140 | the unit reaches `VideoSpec.EndVBlankLine` |
| PixelProcessing.PixelProcessingUnit.UpdateStatMode | pixelprocessingunit.js:145-168 | the unit reaches `VideoSpec.UpdateStatMode` |
| PixelProcessing.PixelProcessingUnit.CheckLyc | pixelprocessingunit.js:170-179 | the unit reaches `VideoSpec.CheckLyc` |
| PixelProcessing.PixelProcessingUnit.SampleLineRegisters | pixelprocessingunit.js:181-186 | the unit reaches `SampleLine` |
| PixelProcessing.PixelProcessingUnit.RenderFrame | pixelprocessingunit.js:188-324 | rendering changes no emulated state; the canvas shows `Render` of the state: blank with the LCD off, otherwise every pixel holds `PixelShade` with its line's scroll snapshot |
| PixelProcessing.PixelProcessingUnit.DrawnShades | pixelprocessingunit.js:205-321 | a frame whose every pixel holds its `PixelShade` is, row by row, the `Frame` of the current state |
| PixelProcessing.PixelProcessingUnit.RenderLine | pixelprocessingunit.js:205-320 | one pass of the row loop fills row y with the shades and leaves the other rows alone |
| PixelProcessing.PixelProcessingUnit.RenderPixel | pixelprocessingunit.js:210-311 | the pixel loop body returns `PixelShade` |
| PixelProcessing.PixelProcessingUnit.ScanSprites | pixelprocessingunit.js:253-304 | the sprite loop returns `SpriteScan` from sprite 0 |
| Sound.EnvelopeStep | PulseChannel.js:80-87 | one envelope step moves the volume by at most one in its direction and stays in 0-15; it changes iff not already at the bound |
| Sound.FrequencyLow | PulseChannel.js:167-169 | an NRx3 write replaces the low byte of the frequency and keeps the high bits |
| Sound.FrequencyHigh | PulseChannel.js:171-172 | an NRx4 write replaces bits 8-10 of the frequency with value & 7 and keeps the low byte |
| PulseSpec.Period | PulseChannel.js:131 | the timer period (2048 - frequency) * 4 is in 4..8192 |
| PulseSpec.SweepTarget | PulseChannel.js:112-117 | a decreasing sweep targets between 0 and the shadow frequency, an increasing one between the shadow frequency and twice it |
| PulseSpec.CheckOverflow | PulseChannel.js:119-122 | the overflow check only clears `enabled`, exactly when the target exceeds 2047 |
| PulseSpec.Fresh | PulseChannel.js:9-40 | a new channel is disabled with its range invariants holding |
| PulseSpec.Sample | PulseChannel.js:136-142 | the sample is 0 when disabled or with the DAC off, and otherwise 0 or the volume |
| PulseSpec.DutyBit | PulseChannel.js:1-6 | each duty-pattern entry is 0 or 1 |
| PulseSpec.WriteRegister | PulseChannel.js:144-178 | a register write keeps the invariants and whether the channel has a sweep unit |
| PulseFacts.TriggerReloads | PulseChannel.js:42-50 | trigger reloads the length counter to 64 - lengthLoad only if it was 0, sets timer (2048 - frequency) * 4, volume and envelope timer |
| PulseFacts.TriggerEnablesWithoutSweep | PulseChannel.js:42-64 | without a sweep unit, trigger enables the channel iff the DAC is on |
| PulseFacts.TriggerArmsSweep | PulseChannel.js:52-59 | on channel 1 trigger sets the shadow, the sweep timer (8 for period 0), sweepEnabled iff period or shift is non-zero, and leaves the channel off when a shifted target overflows |
| PulseFacts.TriggerWithDacOffSilent | PulseChannel.js:61-63 | triggering with initial volume 0 and direction 0 leaves the channel disabled and silent |
| PulseFacts.EnvelopeWriteTurnsOff | PulseChannel.js:158-165 | an NRx2 write with the top five bits zero disables the channel, and the sample is 0 |
| PulseFacts.LengthCountsDown | PulseChannel.js:66-73 | the length counter drops only when enabled and positive, disables the channel exactly when it reaches 0 and never goes negative |
| PulseFacts.EnvelopeBounded | PulseChannel.js:75-89 | with period 0 the envelope does nothing; otherwise the volume stays in 0-15 and moves at most one step in its direction |
| PulseFacts.EnvelopeSettles | PulseChannel.js:75-89 | any number of envelope clocks keeps the volume on its side of the start |
| PulseFacts.SweepCommitsOnlyFittingFrequency | PulseChannel.js:91-109 | a sweep clock changes the frequency only with period and shift non-zero and a target at most 2047, and sets the shadow to it |
| PulseFacts.SubtractiveSweepKeepsEnabled | PulseChannel.js:111-122 | a decreasing sweep never disables the channel |
| PulseFacts.ZeroShiftDoubles | PulseChannel.js:112-117 | an increasing sweep with shift 0 targets twice the shadow |
| PulseFacts.DutyStepAdvancesAtMostOne | PulseChannel.js:126-134 | the duty position stays in 0-7 and advances by one exactly when the timer runs out |
| PulseFacts.SampleOfEnabledChannel | PulseChannel.js:136-142 | an enabled channel with the DAC on outputs duty bit * volume |
| PulseFacts.DutyCycles | PulseChannel.js:1-6 | the four duty patterns are high for 1, 2, 4 and 6 of their 8 steps |
| PulseFacts.FrequencyRoundTrip | PulseChannel.js:167-177 | NRx3 then NRx4 (no trigger) set the frequency to 256 * (high & 7) + low |
| PulseFacts.SweepRegisterOnlyOnChannelOne | PulseChannel.js:146-150 | channel 2 ignores NR10 |
| PulseUnit.PulseChannel.constructor | PulseChannel.js:9-40 | the channel holds `Fresh` |
| PulseUnit.PulseChannel.Trigger | PulseChannel.js:42-64 | the channel reaches `PulseSpec.Trigger` |
| PulseUnit.PulseChannel.Enable | PulseChannel.js:43-46 | trigger enables the channel and reloads a zero length counter to 64 - lengthLoad |
| PulseUnit.PulseChannel.ReloadTimers | PulseChannel.js:48-50 | trigger reloads the timer with the period and the volume and envelope timer from the envelope register |
| PulseUnit.PulseChannel.ArmSweep | PulseChannel.js:52-59 | the channel reaches `PulseSpec.ArmSweep` |
| PulseUnit.PulseChannel.Silence | PulseChannel.js:61-63 | only `enabled` is cleared |
| PulseUnit.PulseChannel.ClockLength | PulseChannel.js:66-73 | the channel reaches `PulseSpec.ClockLength` |
| PulseUnit.PulseChannel.ClockEnvelope | PulseChannel.js:75-89 | the channel reaches `PulseSpec.ClockEnvelope` |
| PulseUnit.PulseChannel.ClockSweep | PulseChannel.js:91-109 | the channel reaches `PulseSpec.ClockSweep` |
| PulseUnit.PulseChannel.SweepStep | PulseChannel.js:96-108 | the channel reaches `PulseSpec.SweepStep` |
| PulseUnit.PulseChannel.Retune | PulseChannel.js:102-103 | the frequency and the shadow frequency both become f |
| PulseUnit.PulseChannel.CalculateSweep | PulseChannel.js:111-124 | returns the sweep target and disables the channel on overflow |
| PulseUnit.PulseChannel.ClockTimer | PulseChannel.js:126-134 | the channel reaches `PulseSpec.ClockTimer` |
| PulseUnit.PulseChannel.GetSample | PulseChannel.js:136-142 | returns `Sample` |
| PulseUnit.PulseChannel.WriteRegister | PulseChannel.js:144-178 | the channel reaches `PulseSpec.WriteRegister` |
| PulseUnit.PulseChannel.WriteSweep | PulseChannel.js:146-150 | the channel reaches `PulseSpec.WriteSweep` |
| PulseUnit.PulseChannel.WriteLength | PulseChannel.js:152-156 | the channel reaches `PulseSpec.WriteLength` |
| PulseUnit.PulseChannel.WriteEnvelope | PulseChannel.js:158-165 | the channel reaches `PulseSpec.WriteEnvelope` |
| PulseUnit.PulseChannel.WriteControl | PulseChannel.js:171-177 | the channel reaches `PulseSpec.WriteControl` |
| NoiseSpec.Fresh | NoiseChannel.js:2-27 | a new channel is disabled with the LFSR at 0x7FFF |
| NoiseSpec.Period | NoiseChannel.js:75-77 | the timer period is at least 8 |
| NoiseSpec.Feedback | NoiseChannel.js:80 | the feedback bit is bit 0 xor bit 1 |
| NoiseSpec.LfsrStep | NoiseChannel.js:80-85 | a shift keeps the LFSR below 2^15 |
| NoiseSpec.Sample | NoiseChannel.js:89-94 | the sample is at most the volume and non-zero only when enabled with LFSR bit 0 clear |
| NoiseSpec.ReadRegister | NoiseChannel.js:96-109 | reads are bytes, and addresses outside NR41-NR44 read 0xFF |
| NoiseFacts.TriggerRestarts | NoiseChannel.js:29-43 | trigger enables the channel, sets the LFSR to 0x7FFF, reloads the length counter only if it was 0, and sets volume, envelope timer and the timer period |
| NoiseFacts.LengthCountsDown | NoiseChannel.js:45-52 | one length clock lowers the counter only when length is enabled and the counter is non-zero, disables the channel exactly when the counter goes from 1 to 0, never goes below 0 and changes nothing else |
| NoiseFacts.LengthCountsDownBy | NoiseChannel.js:45-52 | with length enabled, k clocks (k at most the counter) lower it by k, the channel stays on while the counter is non-zero, and a counter at 0 stays frozen |
| NoiseFacts.LengthSilencesAfterCount | NoiseChannel.js:113-115 | after an NR41 write of v with length enabled, the channel is silent after exactly 64 - (v & 0x3F) length clocks and keeps its enabled flag before that |
| NoiseFacts.PeriodDoublesPerShift | NoiseChannel.js:40-42 | the period is (code > 0 ? code << 4 : 8) << shift |
| NoiseFacts.DisabledTimerIdle | NoiseChannel.js:70-71 | a disabled channel's timer does nothing |
| NoiseFacts.TimerShiftsOnExpiry | NoiseChannel.js:70-87 | when the timer runs out the LFSR shifts once and the timer is reloaded; otherwise only the timer drops |
| NoiseFacts.LfsrShape | NoiseChannel.js:80-86 | the shift puts the feedback into bit 14, and in 7-bit mode also into bit 6 |
| NoiseFacts.WideLfsrNeverEmpties | NoiseChannel.js:80-86 | in 15-bit mode a non-zero LFSR stays non-zero |
| NoiseFacts.NarrowLfsrNeverEmpties | NoiseChannel.js:80-86 | in 7-bit mode non-zero low bits stay non-zero |
| NoiseFacts.NarrowLfsrCanLockUp | NoiseChannel.js:80-86 | in 7-bit mode 0x80 shifts to 0, and 0 is a fixed point in both modes |
| NoiseFacts.SampleFollowsRegister | NoiseChannel.js:89-94 | the sample is the volume iff enabled with LFSR bit 0 clear, 0 otherwise |
| NoiseFacts.EnvelopeRegisterRoundTrip | NoiseChannel.js:100-124 | reading NR42 after writing it returns the byte |
| NoiseFacts.PolynomialRegisterRoundTrip | NoiseChannel.js:102-129 | reading NR43 after writing it returns the byte |
| NoiseFacts.LengthAndControlReads | NoiseChannel.js:98-134 | NR41 reads 0xC0 \| lengthLoad and NR44 reads 0xBF with bit 6 from lengthEnabled |
| NoiseFacts.EnvelopeWriteTurnsOff | NoiseChannel.js:117-124 | an NR42 write with the top five bits zero disables the channel |
| NoiseFacts.ControlWriteTriggersFirst | NoiseChannel.js:130-135 | an NR44 write with bit 7 triggers before `lengthEnabled` is updated |
| NoiseFacts.EnvelopeStallsBelowOne | NoiseChannel.js:54-68 | the envelope reloads only when its timer reaches exactly 0, so a timer already at or below 0 keeps falling |
| NoiseFacts.EnvelopeStepsOnTime | NoiseChannel.js:54-68 | from a timer in 1..period the envelope steps the volume once the timer reaches 0 and reloads it |
| NoiseUnit.NoiseChannel.constructor | NoiseChannel.js:2-27 | the channel holds `Fresh` |
| NoiseUnit.NoiseChannel.Trigger | NoiseChannel.js:29-43 | the channel reaches `NoiseSpec.Trigger` |
| NoiseUnit.NoiseChannel.Enable | NoiseChannel.js:30-33 | trigger enables the channel and reloads a zero length counter to 64 - lengthLoad |
| NoiseUnit.NoiseChannel.ReloadEnvelope | NoiseChannel.js:35-36 | the volume and the envelope timer are reloaded from the envelope register |
| NoiseUnit.NoiseChannel.Refill | NoiseChannel.js:38-42 | the LFSR becomes 0x7FFF and the timer the period |
| NoiseUnit.NoiseChannel.ClockLength | NoiseChannel.js:45-52 | the channel reaches `NoiseSpec.ClockLength`, which NoiseFacts.LengthCountsDown states: the counter drops only with length enabled and a non-zero count, and the channel turns off exactly when it reaches 0 |
| NoiseUnit.NoiseChannel.ClockEnvelope | NoiseChannel.js:54-68 | the channel reaches `NoiseSpec.ClockEnvelope` |
| NoiseUnit.NoiseChannel.ClockTimer | NoiseChannel.js:70-87 | the channel reaches `NoiseSpec.ClockTimer` |
| NoiseUnit.NoiseChannel.Shift | NoiseChannel.js:80-86 | the LFSR takes one `LfsrStep` in the width bit 3 of NR43 selects |
| NoiseUnit.NoiseChannel.GetSample | NoiseChannel.js:89-94 | returns `Sample` |
| NoiseUnit.NoiseChannel.ReadRegister | NoiseChannel.js:96-109 | returns `NoiseSpec.ReadRegister` |
| NoiseUnit.NoiseChannel.WriteRegister | NoiseChannel.js:111-137 | the channel reaches `NoiseSpec.WriteRegister` |
| NoiseUnit.NoiseChannel.WriteEnvelope | NoiseChannel.js:117-124 | the channel reaches `NoiseSpec.WriteEnvelope` |
| NoiseUnit.NoiseChannel.WritePolynomial | NoiseChannel.js:125-129 | the channel reaches `NoiseSpec.WritePolynomial` |
| WaveSpec.Fresh | WaveChannel.js:2-22 | a new channel is disabled, its DAC off and its table zeroed |
| WaveSpec.Period | WaveChannel.js:50 | the timer period (2048 - frequency) * 2 is in 2..4096 |
| WaveSpec.Nibble | WaveChannel.js:60-63 | the selected nibble is at most 15 |
| WaveSpec.Sample | WaveChannel.js:55-72 | the sample is at most the nibble, and 0 when disabled, with the DAC off or at volume code 0 |
| WaveSpec.WriteRegister | WaveChannel.js:74-100 | a register write never changes the wave table |
| WaveFacts.TriggerNeedsDac | WaveChannel.js:24-34 | with the DAC off trigger does nothing; otherwise it enables the channel, sets length 256 if it was 0, timer (2048 - frequency) * 2 and position 0 |
| WaveFacts.DacWriteTurnsOff | WaveChannel.js:76-81 | an NR30 write with bit 7 clear turns off the DAC and the channel |
| WaveFacts.LengthWrite | WaveChannel.js:82-85 | an NR31 write of v sets the length counter to 256 - v |
| WaveFacts.LengthCountsDownBy | WaveChannel.js:36-43 | n length clocks lower the counter by n and disable the channel when it reaches 0 |
| WaveFacts.LengthSilencesAfterCount | WaveChannel.js:36-43 | with length enabled, after writing v to NR31 fewer than 256 - v length clocks leave `enabled` as it was, and 256 - v clocks turn the channel off |
| WaveFacts.PositionAdvancesAtMostOne | WaveChannel.js:45-53 | the position stays in 0-31 and advances by at most one per call |
| WaveFacts.NibbleOrder | WaveChannel.js:60-63 | even positions take the upper nibble of waveTable[position / 2], odd positions the lower |
| WaveFacts.VolumeShift | WaveChannel.js:65-69 | volume code 0 mutes; codes 1, 2, 3 shift the nibble right by 0, 1, 2 |
| WaveFacts.FrequencyRoundTrip | WaveChannel.js:89-94 | NR33 then NR34 (no trigger) set the frequency to 256 * (high & 7) + low |
| WaveFacts.WaveTableWriteIsLocal | WaveChannel.js:102-104 | a table write changes only the byte at its offset |
| WaveUnit.WaveChannel.constructor | WaveChannel.js:2-22 | the channel holds `Fresh` in a new table |
| WaveUnit.WaveChannel.Trigger | WaveChannel.js:24-34 | the channel reaches `WaveSpec.Trigger` |
| WaveUnit.WaveChannel.Restart | WaveChannel.js:32-33 | the timer is reloaded with the period and the position returns to 0 |
| WaveUnit.WaveChannel.ClockLength | WaveChannel.js:36-43 | the channel reaches `WaveSpec.ClockLength` |
| WaveUnit.WaveChannel.ClockTimer | WaveChannel.js:45-53 | the channel reaches `WaveSpec.ClockTimer` |
| WaveUnit.WaveChannel.GetSample | WaveChannel.js:55-72 | returns `Sample` |
| WaveUnit.WaveChannel.WriteRegister | WaveChannel.js:74-100 | the channel reaches `WaveSpec.WriteRegister` |
| WaveUnit.WaveChannel.WriteDac | WaveChannel.js:76-81 | the channel reaches `WaveSpec.WriteDac` |
| WaveUnit.WaveChannel.WriteLength | WaveChannel.js:82-85 | the length load becomes v and the length counter 256 - v |
| WaveUnit.WaveChannel.WriteControl | WaveChannel.js:92-98 | the channel reaches `WaveSpec.WriteControl` |
| WaveUnit.WaveChannel.WriteWaveTable | WaveChannel.js:102-104 | the table array reaches `WriteWaveTable` |
| AudioSpec.Initial | apu.js:9-33 | a new unit is powered off and well formed |
| AudioSpec.ClockFrameSequencer | apu.js:60-82 | the sequencer keeps the invariants and the controls, and its step goes to the next of 0-7, wrapping after 7 |
| AudioSpec.ClockTimers | apu.js:48-51 | the channel timers change neither the controls nor the step |
| AudioSpec.PowerStatus | apu.js:152-158 | NR52 reads between 0x70 and 0xFF |
| AudioSpec.ReadRegister | apu.js:140-167 | every modelled register read is a byte |
| AudioFacts.SequencerChannel1 | apu.js:60-82 | channel 1 gets length on even steps, then sweep on steps 2 and 6, and its envelope on step 7 |
| AudioFacts.SequencerChannel2 | apu.js:60-82 | channel 2 gets length on even steps and its envelope on step 7 |
| AudioFacts.SequencerChannel3 | apu.js:60-67 | the wave channel gets only length, on even steps |
| AudioFacts.SequencerChannel4 | apu.js:60-82 | the noise channel gets length on even steps and its envelope on step 7 |
| AudioFacts.TwoStepsClockWaveLengthOnce | apu.js:60-82 | any two consecutive sequencer steps clock the wave channel's length exactly once |
| AudioFacts.TwoStepsAdvanceTwo | apu.js:81 | two sequencer steps advance the step by two mod 8 |
| AudioFacts.StepNeedsPowerAndOutput | apu.js:35-38 | without power or an attached output `step` does nothing |
| AudioFacts.StepClocks | apu.js:35-51 | `step` adds the cycles to both clocks, fires the sequencer once the clock reaches 8192 and drops it by 8192, and keeps NR50 and NR51 |
| AudioFacts.SequencerKeepsUp | apu.js:40-46 | calls of at most 8192 cycles keep the sequencer clock below 8192 |
| AudioFacts.PoweredOffIgnoresWrites | apu.js:169-172 | while powered off every write except to NR52 is ignored |
| AudioFacts.PoweredOffClearIsIdle | apu.js:170-201 | the zeroing loop run on a powered-off unit changes nothing |
| AudioFacts.AsWrittenPowerOffClearsNothing | apu.js:190-203 | see Findings: switching power off as written only clears the power flag; NR50 still reads its old value |
| AudioFacts.ClearStep | apu.js:199-201 | one zeroing write keeps the power on and extends the zeroed registers by one address |
| AudioFacts.ClearChannel1 | apu.js:174 | zeroing NR10-NR14 keeps the power on and extends the zeroed prefix |
| AudioFacts.ClearChannel2 | apu.js:175 | zeroing 0xFF15-NR24 keeps the power on and extends the zeroed prefix |
| AudioFacts.ClearChannel3 | apu.js:176 | zeroing NR30-0xFF1F keeps the power on and extends the zeroed prefix |
| AudioFacts.ClearChannel4 | apu.js:177 | zeroing NR41-NR44 keeps the power on and extends the zeroed prefix |
| AudioFacts.ClearControl | apu.js:181-189 | zeroing NR50 and NR51 keeps the power on and extends the zeroed prefix |
| AudioFacts.ClearingClears | apu.js:199-201 | the zeroing loop from a powered unit zeroes every register from its start to NR51 |
| AudioFacts.PowerOffSilences | apu.js:190-203 | the corrected power-off leaves the unit off with NR52 reading 0x70 and NR50 and NR51 reading 0 |
| AudioFacts.PowerOnResets | apu.js:190-216 | power-on resets both clocks and the step to 0, installs fresh channels, NR52 reads 0xF0, and NR50 and NR51 are kept |
| AudioFacts.PowerWriteWithoutChange | apu.js:190-203 | an NR52 write that does not change the power bit changes nothing |
| AudioFacts.PowerWritesAgree | apu.js:190-203 | NR52 writes as written and as intended give the same state except when the power goes from on to off |
| AudioSpec.WritePowerAsWritten | apu.js:190-203 | the source's NR52 write: switching on resets the unit, a write that keeps the power bit changes nothing, and it equals the intended `WritePower` except on a switch from on to off, where AudioFacts.AsWrittenPowerOffClearsNothing shows it clears nothing |
| AudioFacts.PowerStatusBits | apu.js:152-158 | NR52 reads bit 7 = power, bits 6-4 = 1 and bits 0-3 = the enabled flags of channels 1-4 |
| AudioFacts.MasterVolumePacking | apu.js:148 | the NR50 fields packed back together give the byte |
| AudioFacts.MasterVolumeRoundTrip | apu.js:147-186 | while powered, reading NR50 after writing v returns v |
| AudioFacts.PanningRoundTrip | apu.js:149-189 | while powered, reading NR51 after writing v returns v |
| AudioFacts.NoiseEnvelopeThroughUnit | apu.js:144-177 | NR42 written and read through the unit returns the byte |
| AudioFacts.WaveRamRoundTrip | apu.js:160-178 | writing 0xFF30 + i then reading it returns the byte, and other wave bytes are unchanged |
| AudioFacts.UnmappedReads | apu.js:166 | unrouted addresses read 0xFF |
| AudioUnit.AudioProcessingUnit.constructor | apu.js:9-33 | the unit holds `Initial` with NR51 from memory and fresh channels |
| AudioUnit.AudioProcessingUnit.ConnectOutput | apu.js:36 | attaching the output sets only `outputAttached` |
| AudioUnit.AudioProcessingUnit.Step | apu.js:35-51 | the unit reaches `AudioSpec.Step` and keeps its channel objects |
| AudioUnit.AudioProcessingUnit.AdvanceClocks | apu.js:40-41 | both clocks grow by the cycles |
| AudioUnit.AudioProcessingUnit.SequencerTick | apu.js:42-46 | the unit reaches `AudioSpec.SequencerTick`: at 8192 cycles the sequencer fires and the clock drops by 8192 |
| AudioUnit.AudioProcessingUnit.ClockTimers | apu.js:48-51 | the unit reaches `AudioSpec.ClockTimers` |
| AudioUnit.AudioProcessingUnit.ClockFrameSequencer | apu.js:60-82 | the unit reaches `AudioSpec.ClockFrameSequencer` |
| AudioUnit.AudioProcessingUnit.ClockLengths | apu.js:62-67 | the unit reaches `AudioSpec.ClockLengths` |
| AudioUnit.AudioProcessingUnit.ClockSweep | apu.js:70-72 | only channel 1 changes, by `PulseSpec.ClockSweep` |
| AudioUnit.AudioProcessingUnit.ClockEnvelopes | apu.js:75-79 | the unit reaches `AudioSpec.ClockEnvelopes` |
| AudioUnit.AudioProcessingUnit.AdvanceStep | apu.js:81 | the step becomes (step + 1) % 8 |
| AudioUnit.AudioProcessingUnit.ReadRegister | apu.js:140-167 | returns `AudioSpec.ReadRegister` |
| AudioUnit.AudioProcessingUnit.ReadStatus | apu.js:152-158 | returns `PowerStatus` |
| AudioUnit.AudioProcessingUnit.WriteRegister | apu.js:169-206 | the unit reaches the corrected `AudioSpec.WriteRegister`; the channel objects are kept except on NR52 |
| AudioUnit.AudioProcessingUnit.WriteChannel | apu.js:174-178 | the unit reaches `AudioSpec.WriteChannel` |
| AudioUnit.AudioProcessingUnit.WriteMasterVolume | apu.js:181-186 | the unit reaches `AudioSpec.WriteMasterVolume` |
| AudioUnit.AudioProcessingUnit.WriteNr51 | apu.js:187-189 | only NR51 changes |
| AudioUnit.AudioProcessingUnit.WritePower | apu.js:190-203 | the unit reaches the corrected `WritePower` |
| AudioUnit.AudioProcessingUnit.ClearRegisters | apu.js:199-201 | the loop writes 0 to 0xFF10-0xFF25 with the power still on, reaching `AudioSpec.ClearRegisters` |
| AudioUnit.AudioProcessingUnit.Reset | apu.js:208-216 | the unit reaches `AudioSpec.Reset` with new channel objects |

## Left out

- `loadROM` (memorymanagementunit.js:20-41) fetches the ROM over the network. The model starts from `initializeRomBanks` given the bytes.
- MemoryUnit.MemoryManagementUnit.InitializeRomBanks requires a ROM of at least 0x4000 bytes. With a shorter ROM, `rom[address]` in `read8bits` would be undefined in JavaScript.
- The MMU does not route 0xFF10-0xFF3F to the audio unit, and the model does not either. The two units share the memory array only for NR51.
- `apu.readRegister` for 0xFF10-0xFF1E is excluded by a precondition. It calls `readRegister` on the pulse and wave channels, which define no such method.
- Audio mixing and output are not modelled: `mixAndBufferSample`, `flushBuffer`, `initAudio`, `masterVolume`, `sampleClock` and the floating-point `CYCLES_PER_SAMPLE`. Whether an audio output is attached is the boolean `outputAttached`, set by `ConnectOutput`.
- The AudioWorklet in `audio-processor.js` is not part of this model.
- The canvas is not modelled: `getContext`, `createImageData`, `putImageData` and the RGB colour table. The frame is a 144 x 160 array of shades 0-3, and the LCD-off white fill is the flag `blank`.
- `getState` and `setState` are plain field copies and are not modelled.
- The `Cpu` class holds the memory unit's state as a `MemState` value, not a reference to the `MemoryManagementUnit` object.
- Processor.Cpu.ExecuteOperation applies the `CpuSpec.Execute` transition to its fields as one state, rather than assigning registers case by case. The primitives the cases use (pair setters, immediates, push, pop, interrupt dispatch) are methods proved step by step.
- The duplicate case labels 0xEE and 0xFE at cpu.js:1261 and cpu.js:1271 are unreachable, since JavaScript takes the first match. Only cpu.js:889 and cpu.js:895 are modelled.
- CpuSpec.Step: uses the intended interrupt dispatch of the first Findings row, which ignores IE & IF bits 5-7. The source's own step is `CpuSpec.StepAsWritten`; CpuFacts.StepsAgree proves the two equal whenever bits 5-7 of IE & IF are clear, and CpuFacts.AsWrittenWakesOnHighBits states what the source does otherwise.
- CpuSpec.HandleInterrupts: the intended dispatch, testing `IE & IF & 0x1F`; the source's eight-bit test at cpu.js:354 is `CpuSpec.HandleInterruptsAsWritten`, equal to it when bits 5-7 are clear (CpuFacts.DispatchesAgree).
- Processor.Cpu.HandleInterrupts: computes `ie & iflag & 0x1F` and so reaches the intended dispatch, not the eight-bit test at cpu.js:354.
- Processor.Cpu.WakeAndDispatch: reaches the intended dispatch; with only bits 5-7 pending the source also clears HALT and IME here, the model does not.
- Processor.Cpu.ExecuteStep: reaches `CpuSpec.Step`, the step with the intended dispatch; it matches the source whenever bits 5-7 of IE & IF are clear.
- CpuFacts.HaltedStep: stated of the intended step. For the source's step it holds only when IE & IF is 0; with bits 5-7 pending the source wakes instead (CpuFacts.AsWrittenWakesOnHighBits).
- CpuFacts.FetchStep: stated of the intended step. For the source's step it holds when IE & IF is 0 or IME is clear; with IME set and bits 5-7 pending the source clears IME first.
- AudioSpec.WriteRegister: routes NR52 to the intended `WritePower` of the second Findings row, which zeroes 0xFF10-0xFF25 before the power goes off. The source's `WritePowerAsWritten` clears nothing; AudioFacts.PowerWritesAgree proves the two equal on every NR52 write except a switch from on to off.
- AudioUnit.AudioProcessingUnit.WriteRegister: reaches `AudioSpec.WriteRegister`, so a power-off write zeroes the registers, which the source does not do.
- AudioUnit.AudioProcessingUnit.WritePower: clears the registers and then switches the power off, the intended order; the source switches off first, so its loop changes nothing (AudioFacts.AsWrittenPowerOffClearsNothing).
- AudioUnit.AudioProcessingUnit.ClearRegisters: runs with the power still on; in the source the same loop runs with the power already off and every write returns at apu.js:170.
- CpuSpec.ExecuteLoad: its contract states only that the loads are implemented and keep the state valid. The effect of each load is its definition, with no lemma beyond the stack round trips.
- CpuSpec.ExecuteTransfer: its contract states only that the transfers are implemented and keep the state valid.
- CpuSpec.ExecuteArithmetic: its contract states only that every case is implemented and keeps the state valid. The flag rules are stated by the ALU functions and the CpuFacts lemmas.
- CpuSpec.ExecuteControl: its contract states only that jumps, calls, returns, restarts, pushes and pops are implemented and keep the state valid. The stack effects are stated by the CpuFacts stack lemmas.
- CpuSpec.ExecuteCb: its contract states only that every CB opcode is implemented and keeps the state valid. BIT, RES and SET are stated by CpuFacts, and the shifts and rotations by the ALU functions.
- CpuFacts.ResetBitEffect: stated for register operands only. The (HL) form goes through a memory write and is not covered.
- CpuFacts.SetBitEffect: stated for register operands only, like RES.
- PulseSpec.Trigger, PulseSpec.ClockLength, PulseSpec.ClockEnvelope, PulseSpec.ClockSweep and PulseSpec.ClockTimer promise only the range invariants. Their effects are stated by the PulseFacts lemmas. The same holds for the Noise and Wave spec functions and their Facts modules (NoiseSpec.ClockLength by NoiseFacts.LengthCountsDown, WaveSpec.ClockLength by WaveFacts.LengthCountsDownBy).
- AudioSpec.Step: its own contract promises only the invariants. Its clock effects are AudioFacts.StepClocks and the sequencer's channel schedule is the SequencerChannel lemmas.
- AudioFacts.TwoStepsClockWaveLengthOnce: the sequencer rates (length at 256 Hz, sweep at 128 Hz, envelope at 64 Hz) are stated per step and for two steps, not over a full eight-step cycle.
- `calculateSweep(update)` in PulseChannel.js never uses its argument, and the model has none.
- The register reads that combine fields with `|` (NR50, NR52, NR41, NR44) are written as sums of disjoint bit fields. NR50 is proved equal to the written byte by AudioFacts.MasterVolumePacking.
- VideoSpec.Step is the scanline loop as a recursive function. PixelProcessing.PixelProcessingUnit.Step runs the `while` loop and is proved to reach it.
- The frame is stored row by row from a computed row of shades, rather than pixel by pixel inside the nested loop.

## Findings

| source | as written | input that shows it | evidently intended | confidence | as-written member | corrected member |
|---|---|---|---|---|---|---|
| cpu.js:351-386 | `pending = ie & _if` over all 8 bits, so a pending bit 5-7 clears HALT and IME although the loop services only bits 0-4 | IME set, IE = 0x20, IF = 0x20: IME and HALT are cleared, nothing is serviced, -1 is returned | only interrupts 0-4 count as pending (`ie & _if & 0x1F`), and the state is unchanged when none of them is | not executed | CpuFacts.AsWrittenLosesIme | CpuFacts.CorrectedKeepsIme |
| apu.js:190-203 | `soundEnabled` is cleared before the zeroing loop, so every `writeRegister(i, 0)` hits the powered-off early return at apu.js:170 | sound on, NR50 = 0x77, write 0x00 to NR52: NR50 still reads 0x77 and the channels keep their state | the registers 0xFF10-0xFF25 are zeroed while the unit is still powered, then power goes off (NR52 reads 0x70, NR50 and NR51 read 0) | not executed | AudioFacts.AsWrittenPowerOffClearsNothing | AudioFacts.PowerOffSilences |
