/** The instruction images of the parallel addition, as the repository ships them for the four cores. */
module AddImages {
  import opened Types
  import opened Isa
  import opened ProgramFlow
  import opened AddPrograms

  /** Core c adds the c-th quarter of the two vectors of 4096 words. */
  function JobOf(c: CoreId): Job { Job(0x400 * c, 0x800 + 0x200 * c, 0x100) }

  /** The words with which the image of core c begins: only they differ. */
  function Heading(c: CoreId): (Word, Word, Word) {
    if c == 0 then (0x00200000, 0x00301800, 0x00331800)
    else if c == 1 then (0x00201400, 0x00301A00, 0x00331A00)
    else if c == 2 then (0x00201800, 0x00301C00, 0x00331C00)
    else (0x00201C00, 0x00301E00, 0x00331E00)
  }

  /** The instruction image of core c. */
  function Image(c: CoreId): (image: seq<Word>)
    ensures |image| == 36
  {
    [Heading(c).0, Heading(c).1, Heading(c).2,
     0x00431800, 0x00441800, 0x00501100, 0x10620000, 0x10721001, 0x10821002, 0x10921003, 0x10A30000, 0x10B31001,
     0x10C31002, 0x10D31003, 0x00E6A000, 0x00F7B000, 0x11E40000, 0x11F41001, 0x00E8C000, 0x00F9D000, 0x11E41002,
     0x11F41003, 0x00221004, 0x00331004, 0x00441004, 0x01551001, 0x0A150006, 0x00000000, 0x00650000, 0x00501100,
     0x10460000, 0x00661004, 0x01551004, 0x0A15001E, 0x00000000, 0x14000000]
  }

  lemma HeadingWords(c: CoreId)
    ensures Unpack(Heading(c).0) == Instruction(ADD, 2, 0, if c == 0 then 0 else 1, JobOf(c).base)
    ensures Unpack(Heading(c).1) == Instruction(ADD, 3, 0, 1, JobOf(c).half)
    ensures Unpack(Heading(c).2) == Instruction(ADD, 3, 3, 1, JobOf(c).half)
    ensures Unpack(0x00431800) == Instruction(ADD, 4, 3, 1, 0x800)
    ensures Unpack(0x00441800) == Instruction(ADD, 4, 4, 1, 0x800)
    ensures Unpack(0x00501100) == Instruction(ADD, 5, 0, 1, 0x100)
  {
  }

  lemma LoadWords()
    ensures Unpack(0x10620000) == Instruction(LW, 6, 2, 0, 0) && Unpack(0x10721001) == Instruction(LW, 7, 2, 1, 1)
    ensures Unpack(0x10821002) == Instruction(LW, 8, 2, 1, 2) && Unpack(0x10921003) == Instruction(LW, 9, 2, 1, 3)
    ensures Unpack(0x10A30000) == Instruction(LW, 10, 3, 0, 0) && Unpack(0x10B31001) == Instruction(LW, 11, 3, 1, 1)
    ensures Unpack(0x10C31002) == Instruction(LW, 12, 3, 1, 2) && Unpack(0x10D31003) == Instruction(LW, 13, 3, 1, 3)
  {
  }

  lemma SumWords()
    ensures Unpack(0x00E6A000) == Instruction(ADD, 14, 6, 10, 0) && Unpack(0x00F7B000) == Instruction(ADD, 15, 7, 11, 0)
    ensures Unpack(0x11E40000) == Instruction(SW, 14, 4, 0, 0) && Unpack(0x11F41001) == Instruction(SW, 15, 4, 1, 1)
    ensures Unpack(0x00E8C000) == Instruction(ADD, 14, 8, 12, 0) && Unpack(0x00F9D000) == Instruction(ADD, 15, 9, 13, 0)
    ensures Unpack(0x11E41002) == Instruction(SW, 14, 4, 1, 2) && Unpack(0x11F41003) == Instruction(SW, 15, 4, 1, 3)
    ensures Unpack(0x00221004) == Instruction(ADD, 2, 2, 1, 4) && Unpack(0x00331004) == Instruction(ADD, 3, 3, 1, 4)
    ensures Unpack(0x00441004) == Instruction(ADD, 4, 4, 1, 4) && Unpack(0x01551001) == Instruction(SUB, 5, 5, 1, 1)
    ensures Unpack(0x0A150006) == Instruction(BNE, 1, 5, 0, 6) && Unpack(0) == NOP
  {
  }

  lemma SweepWords()
    ensures Unpack(0x00650000) == Instruction(ADD, 6, 5, 0, 0) && Unpack(0x00501100) == Instruction(ADD, 5, 0, 1, 256)
    ensures Unpack(0x10460000) == Instruction(LW, 4, 6, 0, 0) && Unpack(0x00661004) == Instruction(ADD, 6, 6, 1, 4)
    ensures Unpack(0x01551004) == Instruction(SUB, 5, 5, 1, 4) && Unpack(0x0A15001E) == Instruction(BNE, 1, 5, 0, 30)
    ensures Unpack(0) == NOP && Unpack(0x14000000) == Instruction(HALT, 0, 0, 0, 0)
  {
  }

  lemma ImagePrologue(prog: Program, c: CoreId)
    requires LoadedFrom(prog, Image(c))
    ensures Prologue(prog, JobOf(c))
  {
    hide Unpack, Heading;
    HeadingWords(c);
  }

  lemma ImageLoads(prog: Program, c: CoreId)
    requires LoadedFrom(prog, Image(c))
    ensures Loads(prog)
  {
    hide Unpack, Heading;
    LoadWords();
  }

  lemma ImageSums(prog: Program, c: CoreId)
    requires LoadedFrom(prog, Image(c))
    ensures Sums(prog)
  {
    hide Unpack, Heading;
    SumWords();
  }

  lemma ImageEpilogue(prog: Program, c: CoreId)
    requires LoadedFrom(prog, Image(c))
    ensures Epilogue(prog)
  {
    hide Unpack, Heading;
    SweepWords();
  }

  /** The images are the programs that add the quarters. */
  lemma ImageAdds(prog: Program, c: CoreId)
    requires LoadedFrom(prog, Image(c))
    ensures AddProgram(prog, JobOf(c))
  {
    hide LoadedFrom, Prologue, Loads, Sums, Epilogue;
    ImagePrologue(prog, c);
    ImageLoads(prog, c);
    ImageSums(prog, c);
    ImageEpilogue(prog, c);
  }
}
