/** The system call filter of sandboxed workers: a classic BPF program generated from a list of
    system call numbers, an interpreter for it, and the proof that it decides as intended. */
module Seccomp {

  /** A 64-bit argument as the two words a 32-bit load can see. */
  datatype Wide = Wide(low: bv32, high: bv32)

  /** The kernel's seccomp_data for one system call. */
  datatype Data = Data(nr: bv32, arch: bv32, pointer: Wide, args: seq<Wide>)

  predicate ValidData(d: Data) { |d.args| == 6 }

  type Skip = n: nat | n < 256

  datatype Code = LoadWord | JumpIfEqual | JumpIfSet | Return

  /** `jt` and `jf` say how many of the following instructions to skip. */
  datatype Instruction = Instruction(code: Code, k: bv32, jt: Skip, jf: Skip)

  const AUDIT_ARCH_AMD64: bv32 := 0xc000_003e
  const X32_BIT: bv32 := 0x4000_0000
  const KILL_PROCESS: bv32 := 0x8000_0000
  const ALLOW: bv32 := 0x7fff_0000
  const DENY: bv32 := 0x0005_0001
  const SYS_PRCTL: bv32 := 157
  const PR_SET_PDEATHSIG: bv32 := 1

  const PROLOGUE := [
    Instruction(LoadWord, 4, 0, 0),
    Instruction(JumpIfEqual, AUDIT_ARCH_AMD64, 1, 0),
    Instruction(Return, KILL_PROCESS, 0, 0),
    Instruction(LoadWord, 0, 0, 0),
    Instruction(JumpIfSet, X32_BIT, 0, 1),
    Instruction(Return, DENY, 0, 0)]

  const EPILOGUE := [
    Instruction(JumpIfEqual, SYS_PRCTL, 0, 3),
    Instruction(LoadWord, 16, 0, 0),
    Instruction(JumpIfEqual, PR_SET_PDEATHSIG, 0, 1),
    Instruction(Return, DENY, 0, 0),
    Instruction(Return, ALLOW, 0, 0)]

  /** Two instructions per number: if this is the call, deny; otherwise skip to the next test. */
  function Tests(numbers: seq<bv32>): seq<Instruction> {
    if numbers == [] then []
    else Tests(numbers[..|numbers| - 1])
         + [Instruction(JumpIfEqual, numbers[|numbers| - 1], 0, 1), Instruction(Return, DENY, 0, 0)]
  }

  function Program(numbers: seq<bv32>): seq<Instruction> { PROLOGUE + Tests(numbers) + EPILOGUE }

  /** The generator, which grows the filter by appending. */
  method BuildFilter(numbers: seq<bv32>) returns (filter: seq<Instruction>)
    ensures filter == Program(numbers)
    ensures forall d, a: bv32 :: ValidData(d) ==> Run(filter, d, 0, a) == Some(Decision(numbers, d))
  {
    filter := PROLOGUE;
    for i := 0 to |numbers|
      invariant filter == PROLOGUE + Tests(numbers[..i])
    {
      assert numbers[..i + 1][..i] == numbers[..i];
      filter := filter + [Instruction(JumpIfEqual, numbers[i], 0, 1), Instruction(Return, DENY, 0, 0)];
    }
    assert numbers[..|numbers|] == numbers;
    filter := filter + EPILOGUE;
    forall d, a: bv32 | ValidData(d) ensures Run(filter, d, 0, a) == Some(Decision(numbers, d)) {
      FilterDecides(numbers, d, a);
    }
  }

  // ----- the kernel's side -----

  datatype Outcome = Some(value: bv32) | Stuck

  /** The 32-bit word at a byte offset of seccomp_data, on a little-endian machine. */
  function Word(d: Data, offset: bv32): Outcome
    requires ValidData(d)
  {
    if offset == 0 then Some(d.nr)
    else if offset == 4 then Some(d.arch)
    else if offset == 8 then Some(d.pointer.low)
    else if offset == 12 then Some(d.pointer.high)
    else if offset < 64 && offset % 8 == 0 then Some(d.args[(offset / 8) as nat - 2].low)
    else if offset < 64 && offset % 8 == 4 then Some(d.args[(offset / 8) as nat - 2].high)
    else Stuck
  }

  /** Interprets the program from instruction `pc` with accumulator `a`. Jumps only go forward, so
      every program ends: with a verdict, or stuck outside the program or its data. */
  function Run(program: seq<Instruction>, d: Data, pc: nat, a: bv32): Outcome
    requires ValidData(d)
    decreases |program| - pc
  {
    if pc >= |program| then Stuck
    else
      var i := program[pc];
      match i.code
      case LoadWord => (match Word(d, i.k) case Some(w) => Run(program, d, pc + 1, w) case Stuck => Stuck)
      case JumpIfEqual => Run(program, d, pc + 1 + (if a == i.k then i.jt else i.jf), a)
      case JumpIfSet => Run(program, d, pc + 1 + (if a & i.k != 0 then i.jt else i.jf), a)
      case Return => Some(i.k)
  }

  /** What the filter is for, stated without reference to instructions. */
  function Decision(numbers: seq<bv32>, d: Data): bv32
    requires ValidData(d)
  {
    if d.arch != AUDIT_ARCH_AMD64 then KILL_PROCESS
    else if d.nr & X32_BIT != 0 then DENY
    else if d.nr in numbers then DENY
    else if d.nr == SYS_PRCTL && d.args[0].low == PR_SET_PDEATHSIG then DENY
    else ALLOW
  }

  lemma {:induction false} TestsAt(numbers: seq<bv32>, k: nat)
    requires k < |numbers|
    ensures |Tests(numbers)| == 2 * |numbers|
    ensures Tests(numbers)[2 * k] == Instruction(JumpIfEqual, numbers[k], 0, 1)
    ensures Tests(numbers)[2 * k + 1] == Instruction(Return, DENY, 0, 0)
  {
    var init := numbers[..|numbers| - 1];
    if init != [] {
      TestsAt(init, if k < |init| then k else 0);
    }
  }

  lemma ProgramAt(numbers: seq<bv32>, k: nat)
    requires k < |numbers|
    ensures |Program(numbers)| == 2 * |numbers| + 11
    ensures Program(numbers)[6 + 2 * k] == Instruction(JumpIfEqual, numbers[k], 0, 1)
    ensures Program(numbers)[7 + 2 * k] == Instruction(Return, DENY, 0, 0)
  {
    TestsAt(numbers, k);
  }

  lemma ProgramEnds(numbers: seq<bv32>)
    ensures |Program(numbers)| == 2 * |numbers| + 11
    ensures forall i :: 0 <= i < 6 ==> Program(numbers)[i] == PROLOGUE[i]
    ensures forall i :: 0 <= i < 5 ==> Program(numbers)[6 + 2 * |numbers| + i] == EPILOGUE[i]
  {
    if numbers != [] {
      TestsAt(numbers, 0);
    }
  }

  /** From the k-th test on, a listed number is denied and any other reaches the epilogue. */
  lemma {:induction false} RunTests(numbers: seq<bv32>, d: Data, k: nat)
    requires ValidData(d) && k <= |numbers|
    ensures Run(Program(numbers), d, 6 + 2 * k, d.nr)
            == if d.nr in numbers[k..] then Some(DENY) else Run(Program(numbers), d, 6 + 2 * |numbers|, d.nr)
    decreases |numbers| - k
  {
    if k < |numbers| {
      ProgramAt(numbers, k);
      RunTests(numbers, d, k + 1);
      assert numbers[k..] == [numbers[k]] + numbers[k + 1..];
    }
  }

  lemma FirstArgument(d: Data)
    requires ValidData(d)
    ensures Word(d, 16) == Some(d.args[0].low)
  {
  }

  lemma RunEpilogue(p: seq<Instruction>, n: nat, d: Data)
    requires ValidData(d) && n + 5 == |p|
    requires forall i :: 0 <= i < 5 ==> p[n + i] == EPILOGUE[i]
    ensures Run(p, d, n, d.nr) == Some(if d.nr == SYS_PRCTL && d.args[0].low == PR_SET_PDEATHSIG then DENY else ALLOW)
  {
    hide Word;
    FirstArgument(d);
    var first := d.args[0].low;
    assert p[n] == EPILOGUE[0] && p[n + 1] == EPILOGUE[1] && p[n + 2] == EPILOGUE[2] && p[n + 3] == EPILOGUE[3] && p[n + 4] == EPILOGUE[4];
    assert Run(p, d, n + 4, d.nr) == Some(ALLOW) && Run(p, d, n + 4, first) == Some(ALLOW);
    assert Run(p, d, n + 3, first) == Some(DENY);
    assert Run(p, d, n + 2, first) == Some(if first == PR_SET_PDEATHSIG then DENY else ALLOW);
    assert Run(p, d, n + 1, d.nr) == Run(p, d, n + 2, first);
  }

  lemma Header(d: Data)
    requires ValidData(d)
    ensures Word(d, 0) == Some(d.nr) && Word(d, 4) == Some(d.arch)
  {
  }

  lemma RunPrologue(p: seq<Instruction>, d: Data, a: bv32)
    requires ValidData(d) && 6 <= |p|
    requires forall i :: 0 <= i < 6 ==> p[i] == PROLOGUE[i]
    ensures Run(p, d, 0, a) == if d.arch != AUDIT_ARCH_AMD64 then Some(KILL_PROCESS)
                               else if d.nr & X32_BIT != 0 then Some(DENY)
                               else Run(p, d, 6, d.nr)
  {
    hide Word;
    Header(d);
    assert p[0] == PROLOGUE[0] && p[1] == PROLOGUE[1] && p[2] == PROLOGUE[2] && p[3] == PROLOGUE[3] && p[4] == PROLOGUE[4] && p[5] == PROLOGUE[5];
    assert Run(p, d, 5, d.nr) == Some(DENY);
    assert Run(p, d, 4, d.nr) == if d.nr & X32_BIT != 0 then Some(DENY) else Run(p, d, 6, d.nr);
    assert Run(p, d, 3, d.arch) == Run(p, d, 4, d.nr);
    assert Run(p, d, 2, d.arch) == Some(KILL_PROCESS);
    assert Run(p, d, 1, d.arch) == if d.arch == AUDIT_ARCH_AMD64 then Run(p, d, 3, d.arch) else Run(p, d, 2, d.arch);
  }

  /** Whatever the list of numbers and the system call, the program halts inside itself with the
      intended verdict. */
  lemma FilterDecides(numbers: seq<bv32>, d: Data, a: bv32)
    requires ValidData(d)
    ensures Run(Program(numbers), d, 0, a) == Some(Decision(numbers, d))
    ensures Decision(numbers, d) ==
            if d.arch != 0xc000_003e then 0x8000_0000
            else if d.nr & 0x4000_0000 != 0 || d.nr in numbers || (d.nr == 157 && d.args[0].low == 1) then 0x0005_0001
            else 0x7fff_0000
  {
    hide Program, Run;
    ProgramEnds(numbers);
    var p := Program(numbers);
    RunPrologue(p, d, a);
    RunTests(numbers, d, 0);
    RunEpilogue(p, 6 + 2 * |numbers|, d);
    assert numbers[0..] == numbers;
  }

  /** What the kernel demands of a classic program before it runs it: bounded length, every jump
      inside the program, every load an aligned word of the data, and a return at the end. */
  predicate Acceptable(program: seq<Instruction>) {
    && 1 <= |program| <= 4096
    && program[|program| - 1].code == Return
    && forall pc :: 0 <= pc < |program| ==> Confined(program[pc], pc, |program|)
  }

  predicate Confined(i: Instruction, pc: int, length: nat) {
    && (i.code == JumpIfEqual || i.code == JumpIfSet ==> pc + 1 + i.jt < length && pc + 1 + i.jf < length)
    && (i.code == LoadWord ==> i.k < 64 && i.k & 3 == 0)
  }

  lemma FixedConfined(length: nat)
    requires 11 <= length
    ensures forall i :: 0 <= i < 6 ==> Confined(PROLOGUE[i], i, length)
    ensures forall i :: 0 <= i < 5 ==> Confined(EPILOGUE[i], length - 5 + i, length)
  {
  }

  /** The program is loadable exactly when the list is short enough, and then its length fits the
      16-bit length field it is passed in. */
  lemma ProgramAcceptable(numbers: seq<bv32>)
    ensures Acceptable(Program(numbers)) <==> |numbers| <= 2042
    ensures Acceptable(Program(numbers)) ==> |Program(numbers)| < 0x1_0000
  {
    hide Program;
    ProgramEnds(numbers);
    var p := Program(numbers);
    FixedConfined(|p|);
    assert p[|p| - 1] == EPILOGUE[4];
    forall pc | 0 <= pc < |p| ensures Confined(p[pc], pc, |p|) {
      if pc < 6 {
        assert p[pc] == PROLOGUE[pc];
      } else if pc < 6 + 2 * |numbers| {
        var k := (pc - 6) / 2;
        ProgramAt(numbers, k);
        assert pc == 6 + 2 * k || pc == 7 + 2 * k;
      } else {
        assert p[pc] == EPILOGUE[pc - (|p| - 5)];
      }
    }
  }
}
