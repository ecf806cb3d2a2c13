/**
 * The circuit of the five-qubit code as `five_qubits_with_random_Pauli`
 * builds it, stage by stage: encoder, random Pauli errors, stabilizer
 * circuits on four ancillas, syndrome measurements, the correction table
 * applied through conditional blocks, and the decoder.
 */
module FiveQubitCode {
  import opened Seqs
  import opened Wrappers
  import opened Circuits
  import opened Binary
  import opened PyDict

  /** Data qubit `j` of register `q`. */
  function Data(j: nat): Qubit { Qubit("q", j) }

  /** Ancilla `i` of register `a`. */
  function Anc(i: nat): Qubit { Qubit("a", i) }

  /** Syndrome bit `i` of register `s`. */
  function Syn(i: nat): Clbit { Clbit("s", i) }

  /** The single bit of register `m`, the final logical measurement. */
  function Logical(): Clbit { Clbit("m", 0) }

  /** The qubits once both quantum registers are declared. */
  function AllQubits(): seq<Qubit> { QReg("q", 5) + QReg("a", 4) }

  /** The classical bits once both classical registers are declared. */
  function AllClbits(): seq<Clbit> { CReg("s", 4) + CReg("m", 1) }

  /** The Python exceptions the script can raise. */
  datatype PyError = UnboundLocalError | NameError | ValueError

  // ---------------------------------------------------------------------
  // State preparation

  /** The logical states the flags select: |0>, |1>, |+> and |->. */
  datatype LogicalState = Zero | One | Plus | Minus

  function LogicalStateOf(x1: int, x2: int): Option<LogicalState>
  {
    if (x1, x2) == (0, 0) then Some(Zero)
    else if (x1, x2) == (0, 1) then Some(One)
    else if (x1, x2) == (1, 0) then Some(Plus)
    else if (x1, x2) == (1, 1) then Some(Minus)
    else None
  }

  /** Whether the angle θ = 2·arccos|α| is non-zero, so that the `ry`
      rotation is reached: |α| is 1 only for |0>. */
  predicate NeedsRotation(s: LogicalState)
  {
    s != Zero
  }

  /** The exception raised before the encoder, if any: with flags outside
      the four pairs `alpha` is never bound; a rotation calls a method of
      the undefined name `qc`. */
  function PreparationError(x1: int, x2: int): (e: Option<PyError>)
    ensures e.None? <==> x1 == 0 && x2 == 0
    ensures e == Some(NameError) <==> (x1, x2) == (0, 1) || (x1, x2) == (1, 0) || (x1, x2) == (1, 1)
    ensures e == Some(UnboundLocalError) <==>
      (x1, x2) != (0, 0) && (x1, x2) != (0, 1) && (x1, x2) != (1, 0) && (x1, x2) != (1, 1)
  {
    match LogicalStateOf(x1, x2)
    case None => Some(UnboundLocalError)
    case Some(s) => if NeedsRotation(s) then Some(NameError) else None
  }

  // ---------------------------------------------------------------------
  // Encoder and decoder

  /** The encoding circuit: H(0), CX(0,2), CX(2,1), CX(1,3), CX(3,4), CZ(0,4). */
  function Encoder(): seq<Instr>
  {
    [H(Data(0)), CX(Data(0), Data(2)), CX(Data(2), Data(1)),
     CX(Data(1), Data(3)), CX(Data(3), Data(4)), CZ(Data(0), Data(4))]
  }

  /** The decoder appended at the end: the encoder's gates in reverse order. */
  function Decoder(): seq<Instr>
  {
    Reverse(Encoder())
  }

  /** Only H, CX and CZ on data qubits, so no Pauli, measurement or
      conditional block, and nothing on an ancilla. */
  predicate DataUnitary(ops: seq<Instr>)
  {
    forall k :: 0 <= k < |ops| ==>
      (ops[k].H? && ops[k].q.reg == "q") ||
      ((ops[k].CX? || ops[k].CZ?) && ops[k].control.reg == "q" && ops[k].target.reg == "q")
  }

  /** The decoder is the encoder read backwards: CZ(0,4), CX(3,4), CX(1,3),
      CX(2,1), CX(0,2), H(0); only data-qubit H/CX/CZ gates. */
  lemma DecoderGates()
    ensures Decoder() ==
      [CZ(Data(0), Data(4)), CX(Data(3), Data(4)), CX(Data(1), Data(3)),
       CX(Data(2), Data(1)), CX(Data(0), Data(2)), H(Data(0))]
    ensures DataUnitary(Decoder())
  {
    var e := Encoder();
    assert Reverse(e) == [e[5], e[4], e[3], e[2], e[1], e[0]];
  }

  /** `inverse()` of the encoder is the decoder, and the other way round. */
  lemma DecoderIsInverse()
    ensures Inverse(Encoder()) == Some(Decoder())
    ensures Inverse(Decoder()) == Some(Encoder())
  {
    assert AllSelfInverse(Encoder());
    InverseOfSelfInverse(Encoder());
    InverseInvolutive(Encoder());
  }

  /** The encoder followed by the decoder cancels gate by gate. */
  lemma DecoderCancels()
    ensures Cancel([], Encoder() + Decoder()) == []
  {
    assert AllSelfInverse(Encoder());
    CancelMirror([], Encoder());
  }

  // ---------------------------------------------------------------------
  // Error channel

  /** The Pauli error drawn for one qubit from sample `r` at rate `p`. */
  function ErrorFor(r: real, p: real): Option<Pauli>
  {
    if r < p / 3.0 then Some(PX)
    else if r < 2.0 * p / 3.0 then Some(PY)
    else if r < p then Some(PZ)
    else None
  }

  /** For a non-negative rate the three errors split [0, p) into thirds. */
  lemma ErrorForSpec(r: real, p: real)
    requires p >= 0.0
    ensures ErrorFor(r, p) == Some(PX) <==> r < p / 3.0
    ensures ErrorFor(r, p) == Some(PY) <==> p / 3.0 <= r < 2.0 * p / 3.0
    ensures ErrorFor(r, p) == Some(PZ) <==> 2.0 * p / 3.0 <= r < p
    ensures ErrorFor(r, p) == None <==> r >= p
  {
  }

  /** The gate the error step appends to data qubit `j`, if any. */
  function ErrorGate(j: nat, e: Option<Pauli>): (g: seq<Instr>)
    ensures |g| == if e.Some? then 1 else 0
    ensures e.Some? ==> g[0] == PauliGate(e.value, Data(j))
  {
    match e
    case None => []
    case Some(k) => [PauliGate(k, Data(j))]
  }

  /** The gates of the error step on the first `n` data qubits, where `r(j)`
      is the sample drawn for qubit `j`. */
  function ErrorGates(p: real, r: nat -> real, n: nat): seq<Instr>
  {
    if n == 0 then [] else ErrorGates(p, r, n - 1) + ErrorGate(n - 1, ErrorFor(r(n - 1), p))
  }

  /** A Pauli gate X, Y or Z on data qubit `j`. */
  predicate IsPauliOn(g: Instr, j: nat)
  {
    (g.X? || g.Y? || g.Z?) && g.q == Data(j)
  }

  /** A Pauli gate X, Y or Z on one of the data qubits below `n`. */
  predicate IsPauliBelow(g: Instr, n: nat)
  {
    (g.X? || g.Y? || g.Z?) && g.q.reg == "q" && g.q.index < n
  }

  /** Number of instructions that are a Pauli gate on data qubit `j`. */
  function PauliCount(ops: seq<Instr>, j: nat): nat
  {
    if ops == [] then 0
    else PauliCount(ops[..|ops| - 1], j) + (if IsPauliOn(ops[|ops| - 1], j) then 1 else 0)
  }

  lemma {:induction false} PauliCountAppend(a: seq<Instr>, b: seq<Instr>, j: nat)
    ensures PauliCount(a + b, j) == PauliCount(a, j) + PauliCount(b, j)
    decreases |b|
  {
    if b != [] {
      assert (a + b)[..|a + b| - 1] == a + b[..|b| - 1];
      PauliCountAppend(a, b[..|b| - 1], j);
    } else {
      assert a + b == a;
    }
  }

  /** The error step appends at most one gate per qubit, each a Pauli gate
      on one of the first `n` data qubits, in qubit order. */
  lemma {:induction false} ErrorGatesShape(p: real, r: nat -> real, n: nat)
    ensures |ErrorGates(p, r, n)| <= n
    ensures forall k :: 0 <= k < |ErrorGates(p, r, n)| ==> IsPauliBelow(ErrorGates(p, r, n)[k], n)
  {
    if n > 0 {
      ErrorGatesShape(p, r, n - 1);
      var prev := ErrorGates(p, r, n - 1);
      var last := ErrorGate(n - 1, ErrorFor(r(n - 1), p));
      var all := ErrorGates(p, r, n);
      assert all == prev + last;
      forall k | 0 <= k < |all| ensures IsPauliBelow(all[k], n) {
        if k < |prev| {
          assert all[k] == prev[k];
        }
      }
    }
  }

  /** Qubit `j` gets exactly one Pauli gate when its sample falls below the
      thresholds of ErrorFor, and none otherwise. */
  lemma {:induction false} ErrorGatesCount(p: real, r: nat -> real, n: nat, j: nat)
    requires j < n
    ensures PauliCount(ErrorGates(p, r, n), j) == if ErrorFor(r(j), p).Some? then 1 else 0
  {
    var prev := ErrorGates(p, r, n - 1);
    var last := ErrorGate(n - 1, ErrorFor(r(n - 1), p));
    assert ErrorGates(p, r, n) == prev + last;
    PauliCountAppend(prev, last, j);
    if last != [] {
      assert last[..0] == [];
      assert PauliCount(last, j) == if IsPauliOn(last[0], j) then 1 else 0;
    }
    if j == n - 1 {
      ErrorGatesShape(p, r, n - 1);
      PauliCountZero(prev, j, n - 1);
    } else {
      ErrorGatesCount(p, r, n - 1, j);
    }
  }

  /** The gate appended for qubit `j` is the Pauli ErrorFor names. */
  lemma {:induction false} ErrorGatesContain(p: real, r: nat -> real, n: nat, j: nat)
    requires j < n && ErrorFor(r(j), p).Some?
    ensures PauliGate(ErrorFor(r(j), p).value, Data(j)) in ErrorGates(p, r, n)
  {
    var prev := ErrorGates(p, r, n - 1);
    var last := ErrorGate(n - 1, ErrorFor(r(n - 1), p));
    assert ErrorGates(p, r, n) == prev + last;
    if j < n - 1 {
      ErrorGatesContain(p, r, n - 1, j);
    } else {
      assert last[0] in prev + last;
    }
  }

  /** No Pauli on qubit `j` among Pauli gates on qubits below `n <= j`. */
  lemma {:induction false} PauliCountZero(ops: seq<Instr>, j: nat, n: nat)
    requires forall k :: 0 <= k < |ops| ==> IsPauliBelow(ops[k], n)
    requires n <= j
    ensures PauliCount(ops, j) == 0
  {
    if ops != [] {
      var init := ops[..|ops| - 1];
      assert forall k :: 0 <= k < |init| ==> init[k] == ops[k];
      PauliCountZero(init, j, n);
    }
  }

  /** At rate 0, with samples from [0, 1), no error gate is appended. */
  lemma {:induction false} ZeroRateNoErrors(r: nat -> real, n: nat)
    requires forall j :: 0 <= j < n ==> r(j) >= 0.0
    ensures ErrorGates(0.0, r, n) == []
  {
    if n > 0 {
      ZeroRateNoErrors(r, n - 1);
    }
  }

  // ---------------------------------------------------------------------
  // Stabilizer circuits and syndrome measurements

  /** The four stabilizer generators, one character per data qubit. */
  const Stabilizers: seq<string> := ["IXZZX", "XIXZZ", "ZXIXZ", "XZZXI"]

  /** The gates of one stabilizer character: CX from data qubit `j` onto
      ancilla `i` for 'X', CZ for 'Z', nothing otherwise. */
  function ParityGate(c: char, j: nat, i: nat): seq<Instr>
  {
    (if c == 'X' then [CX(Data(j), Anc(i))] else []) +
    (if c == 'Z' then [CZ(Data(j), Anc(i))] else [])
  }

  /** The gates of the first `n` characters of stabilizer `s` on ancilla `i`. */
  function ParityGates(s: string, i: nat, n: nat): seq<Instr>
    requires n <= |s|
  {
    if n == 0 then [] else ParityGates(s, i, n - 1) + ParityGate(s[n - 1], n - 1, i)
  }

  /** H on the ancilla, the parity gates, H again. */
  function StabilizerBlock(s: string, i: nat): seq<Instr>
  {
    [H(Anc(i))] + ParityGates(s, i, |s|) + [H(Anc(i))]
  }

  /** The blocks of the first `n` stabilizers, stabilizer `i` on ancilla `i`. */
  function StabilizerGates(ps: seq<string>, n: nat): seq<Instr>
    requires n <= |ps|
  {
    if n == 0 then [] else StabilizerGates(ps, n - 1) + StabilizerBlock(ps[n - 1], n - 1)
  }

  /** Number of positions below `n` where `s` holds `c`. */
  function CountOf(s: string, c: char, n: nat): nat
    requires n <= |s|
  {
    if n == 0 then 0 else CountOf(s, c, n - 1) + (if s[n - 1] == c then 1 else 0)
  }

  /** One parity gate per 'X' and per 'Z' of the stabilizer. */
  lemma {:induction false} ParityGatesLength(s: string, i: nat, n: nat)
    requires n <= |s|
    ensures |ParityGates(s, i, n)| == CountOf(s, 'X', n) + CountOf(s, 'Z', n)
  {
    if n > 0 {
      ParityGatesLength(s, i, n - 1);
    }
  }

  /** The index of the control qubit of a CX or CZ gate. */
  function ControlIndex(g: Instr): int
  {
    if g.CX? || g.CZ? then g.control.index else -1
  }

  /** A parity gate of ancilla `i` from data qubit `j` below `n`: CX where
      the stabilizer has 'X', CZ where it has 'Z'. */
  predicate ParityGateFrom(s: string, i: nat, n: nat, g: Instr)
    requires n <= |s|
  {
    (g.CX? || g.CZ?) && g.target == Anc(i) && g.control.reg == "q" && g.control.index < n &&
    s[g.control.index] == (if g.CX? then 'X' else 'Z')
  }

  /** Every parity gate comes from an 'X' or 'Z' of the stabilizer, in
      increasing qubit order; so an 'I' emits nothing. */
  lemma {:induction false} ParityGatesShape(s: string, i: nat, n: nat)
    requires n <= |s|
    ensures forall k :: 0 <= k < |ParityGates(s, i, n)| ==> ParityGateFrom(s, i, n, ParityGates(s, i, n)[k])
    ensures forall k, k' :: 0 <= k < k' < |ParityGates(s, i, n)| ==>
      ControlIndex(ParityGates(s, i, n)[k]) < ControlIndex(ParityGates(s, i, n)[k'])
  {
    if n > 0 {
      ParityGatesShape(s, i, n - 1);
      var prev := ParityGates(s, i, n - 1);
      var all := ParityGates(s, i, n);
      assert all == prev + ParityGate(s[n - 1], n - 1, i);
      forall k | 0 <= k < |all| ensures ParityGateFrom(s, i, n, all[k]) {
        if k < |prev| {
          assert all[k] == prev[k];
          assert ParityGateFrom(s, i, n - 1, prev[k]);
        }
      }
    }
  }

  /** Every 'X' of the stabilizer emits its CX and every 'Z' its CZ. */
  lemma {:induction false} ParityGatesCover(s: string, i: nat, n: nat)
    requires n <= |s|
    ensures forall j :: 0 <= j < n && s[j] == 'X' ==> CX(Data(j), Anc(i)) in ParityGates(s, i, n)
    ensures forall j :: 0 <= j < n && s[j] == 'Z' ==> CZ(Data(j), Anc(i)) in ParityGates(s, i, n)
  {
    if n > 0 {
      ParityGatesCover(s, i, n - 1);
    }
  }

  /** 1 where `s` holds `c` at position `k`, 0 elsewhere. */
  function Hit(s: string, c: char, k: nat): nat
    requires k < |s|
  {
    if s[k] == c then 1 else 0
  }

  /** CountOf over a five-character string, position by position. */
  lemma CountOfFive(s: string, c: char)
    requires |s| == 5
    ensures CountOf(s, c, 5) == Hit(s, c, 0) + Hit(s, c, 1) + Hit(s, c, 2) + Hit(s, c, 3) + Hit(s, c, 4)
  {
    assert CountOf(s, c, 1) == Hit(s, c, 0);
    assert CountOf(s, c, 2) == CountOf(s, c, 1) + Hit(s, c, 1);
    assert CountOf(s, c, 3) == CountOf(s, c, 2) + Hit(s, c, 2);
    assert CountOf(s, c, 4) == CountOf(s, c, 3) + Hit(s, c, 3);
    assert CountOf(s, c, 5) == CountOf(s, c, 4) + Hit(s, c, 4);
  }

  /** A generator of five characters with one 'I' and four 'X' or 'Z'. */
  predicate GeneratorShape(s: string)
  {
    |s| == 5 && CountOf(s, 'X', 5) + CountOf(s, 'Z', 5) == 4 && CountOf(s, 'I', 5) == 1
  }

  lemma GeneratorShapeOf(s: string)
    requires |s| == 5
    requires Hit(s, 'X', 0) + Hit(s, 'X', 1) + Hit(s, 'X', 2) + Hit(s, 'X', 3) + Hit(s, 'X', 4) +
             Hit(s, 'Z', 0) + Hit(s, 'Z', 1) + Hit(s, 'Z', 2) + Hit(s, 'Z', 3) + Hit(s, 'Z', 4) == 4
    requires Hit(s, 'I', 0) + Hit(s, 'I', 1) + Hit(s, 'I', 2) + Hit(s, 'I', 3) + Hit(s, 'I', 4) == 1
    ensures GeneratorShape(s)
  {
    CountOfFive(s, 'X');
    CountOfFive(s, 'Z');
    CountOfFive(s, 'I');
  }

  /** Each generator has five characters, one 'I' and four 'X' or 'Z'. */
  lemma StabilizersShape()
    ensures |Stabilizers| == 4
    ensures forall i :: 0 <= i < 4 ==> GeneratorShape(Stabilizers[i])
  {
    GeneratorShapeOf("IXZZX");
    GeneratorShapeOf("XIXZZ");
    GeneratorShapeOf("ZXIXZ");
    GeneratorShapeOf("XZZXI");
    forall i | 0 <= i < 4 ensures GeneratorShape(Stabilizers[i]) {
      if i == 0 { assert Stabilizers[i] == "IXZZX"; }
      else if i == 1 { assert Stabilizers[i] == "XIXZZ"; }
      else if i == 2 { assert Stabilizers[i] == "ZXIXZ"; }
      else { assert Stabilizers[i] == "XZZXI"; }
    }
  }

  /** When every block has four parity gates, the stabilizer stage is six
      gates per stabilizer: block `i` sits at positions 6i .. 6i+5. */
  lemma {:induction false} StabilizerLayout(ps: seq<string>, n: nat)
    requires n <= |ps|
    requires forall i :: 0 <= i < n ==> |ParityGates(ps[i], i, |ps[i]|)| == 4
    ensures |StabilizerGates(ps, n)| == 6 * n
    ensures forall i :: 0 <= i < n ==> StabilizerGates(ps, n)[6 * i .. 6 * i + 6] == StabilizerBlock(ps[i], i)
  {
    if n > 0 {
      StabilizerLayout(ps, n - 1);
      var prev := StabilizerGates(ps, n - 1);
      assert StabilizerGates(ps, n)[..6 * (n - 1)] == prev;
      forall i | 0 <= i < n ensures StabilizerGates(ps, n)[6 * i .. 6 * i + 6] == StabilizerBlock(ps[i], i) {
        if i < n - 1 {
          assert StabilizerGates(ps, n)[6 * i .. 6 * i + 6] == prev[6 * i .. 6 * i + 6];
        }
      }
    }
  }

  /** For generators of the shape above, the stabilizer stage has six gates
      per generator: an H on ancilla `i`, its four parity gates, an H. */
  lemma {:induction false} StabilizerBlocks(ps: seq<string>, n: nat)
    requires n <= |ps| && forall i :: 0 <= i < n ==> GeneratorShape(ps[i])
    ensures |StabilizerGates(ps, n)| == 6 * n
    ensures forall i :: 0 <= i < n ==>
      StabilizerGates(ps, n)[6 * i] == H(Anc(i)) &&
      StabilizerGates(ps, n)[6 * i + 5] == H(Anc(i)) &&
      StabilizerGates(ps, n)[6 * i + 1 .. 6 * i + 5] == ParityGates(ps[i], i, |ps[i]|)
  {
    forall i | 0 <= i < n ensures |ParityGates(ps[i], i, |ps[i]|)| == 4 {
      ParityGatesLength(ps[i], i, 5);
    }
    StabilizerLayout(ps, n);
    var all := StabilizerGates(ps, n);
    forall i | 0 <= i < n
      ensures all[6 * i] == H(Anc(i)) && all[6 * i + 5] == H(Anc(i))
      ensures all[6 * i + 1 .. 6 * i + 5] == ParityGates(ps[i], i, |ps[i]|)
    {
      var b := all[6 * i .. 6 * i + 6];
      assert b == StabilizerBlock(ps[i], i);
      assert b[0] == all[6 * i] && b[5] == all[6 * i + 5];
      assert b[1..5] == all[6 * i + 1 .. 6 * i + 5];
    }
  }

  /** The stabilizer stage of the script has 24 gates (StabilizerBlocks,
      with StabilizersShape, gives each block's contents). */
  lemma StabilizerStage()
    ensures |StabilizerGates(Stabilizers, 4)| == 24
  {
    StabilizersShape();
    StabilizerBlocks(Stabilizers, 4);
  }




  /** Ancilla `i` measured into syndrome bit `i`, for i = 0, 1, 2, 3. */
  function SyndromeMeasurements(): seq<Instr>
  {
    [Measure(Anc(0), Syn(0)), Measure(Anc(1), Syn(1)), Measure(Anc(2), Syn(2)), Measure(Anc(3), Syn(3))]
  }

  // ---------------------------------------------------------------------
  // Correction table

  /** A correction: the Pauli label ('I', 'X', 'Y' or 'Z') and the data qubit. */
  type Correction = (char, Option<nat>)

  /** The correction dict literal as written, entry by entry; the key
      "1110" occurs twice. */
  const CorrectionLiteral: seq<(string, Correction)> := [
    ("0000", ('I', None)),
    ("1110", ('X', Some(0))), ("0111", ('Y', Some(0))), ("1001", ('Z', Some(0))),
    ("1011", ('X', Some(1))), ("1101", ('Y', Some(1))), ("0100", ('Z', Some(1))),
    ("1100", ('X', Some(2))), ("1010", ('Y', Some(2))), ("0011", ('Z', Some(2))),
    ("1000", ('X', Some(3))), ("1111", ('Y', Some(3))), ("0110", ('Z', Some(3))),
    ("0101", ('X', Some(4))), ("0001", ('Y', Some(4))), ("1110", ('Z', Some(4)))
  ]

  /** The syndrome values `int(key[::-1], 2)` of the 15 distinct keys, in
      dict order. */
  const CorrectionValues: seq<nat> := [0, 7, 14, 9, 13, 11, 2, 3, 5, 12, 1, 15, 6, 10, 8]

  /** A table entry the correction loop can process: a binary key, and a
      data qubit for every correction other than 'I'. */
  predicate WellFormedEntry(e: (string, Correction))
  {
    IsBinaryDigits(e.0) && |e.0| == 4 && (e.1.0 != 'I' ==> e.1.1.Some? && e.1.1.value < 5)
  }

  predicate WellFormedTable(t: Dict<string, Correction>)
  {
    KeysDistinct(t) && forall k :: 0 <= k < |t| ==> WellFormedEntry(t[k])
  }

  /** The value of a four-digit key read least significant digit first. */
  function KeyCode(key: string): nat
    requires |key| == 4
  {
    DigitValue(key[0]) + 2 * DigitValue(key[1]) + 4 * DigitValue(key[2]) + 8 * DigitValue(key[3])
  }

  /** The keys of the first fifteen entries, as the dict stores them. */
  const LiteralKeyList: seq<string> :=
    ["0000", "1110", "0111", "1001", "1011", "1101", "0100", "1100",
     "1010", "0011", "1000", "1111", "0110", "0101", "0001"]

  lemma LiteralKeyCodes()
    ensures forall k :: 0 <= k < 15 ==> IsBinaryDigits(LiteralKeyList[k]) && |LiteralKeyList[k]| == 4
    ensures forall k :: 0 <= k < 15 ==> KeyCode(LiteralKeyList[k]) == CorrectionValues[k]
  {
  }

  lemma LiteralKeyListOf()
    ensures forall k :: 0 <= k < 15 ==> CorrectionLiteral[k].0 == LiteralKeyList[k]
    ensures forall k :: 0 <= k < 16 ==> CorrectionLiteral[k].1.0 != 'I' ==>
      CorrectionLiteral[k].1.1.Some? && CorrectionLiteral[k].1.1.value < 5
  {
  }

  lemma CorrectionValuesDistinct()
    ensures Distinct(CorrectionValues)
  {
  }

  /** The keys of the first fifteen entries convert to CorrectionValues. */
  lemma LiteralKeyValues()
    ensures forall k :: 0 <= k < 15 ==> SyndromeValue(LiteralKeyList[k]) == Some(CorrectionValues[k])
  {
    LiteralKeyCodes();
    forall k | 0 <= k < 15
      ensures SyndromeValue(LiteralKeyList[k]) == Some(CorrectionValues[k])
    {
      SyndromeValueOfFour(LiteralKeyList[k]);
    }
  }

  /** The first fifteen entries of the literal have distinct well-formed
      keys, whose syndrome values are CorrectionValues. */
  lemma LiteralKeys()
    ensures forall k :: 0 <= k < 15 ==> WellFormedEntry(CorrectionLiteral[k])
    ensures forall k :: 0 <= k < 15 ==> SyndromeValue(CorrectionLiteral[k].0) == Some(CorrectionValues[k])
    ensures KeysDistinct(CorrectionLiteral[..15])
  {
    LiteralKeyListOf();
    LiteralKeyCodes();
    LiteralKeyValues();
    CorrectionValuesDistinct();
    var first := CorrectionLiteral[..15];
    forall i, j | 0 <= i < j < 15 ensures first[i].0 != first[j].0 {
      assert KeyCode(LiteralKeyList[i]) != KeyCode(LiteralKeyList[j]);
    }
  }

  /** Past the first entry, no entry of the literal is 'I', and only the
      first "1110" names X on qubit 0. */
  lemma LiteralLabels()
    ensures forall k :: 1 <= k < 16 ==>
      CorrectionLiteral[k].1.0 == 'X' || CorrectionLiteral[k].1.0 == 'Y' || CorrectionLiteral[k].1.0 == 'Z'
    ensures forall k :: 2 <= k < 16 ==> CorrectionLiteral[k].1 != ('X', Some(0))
  {
  }

  /** The facts about the evaluated dict the correction stage relies on:
      fifteen well-formed entries with the syndrome values CorrectionValues,
      "0000" first and the only 'I' (every other one 'X', 'Y' or 'Z'), "1110" second mapping to Z on qubit 4,
      and no entry X on qubit 0. */
  predicate ScriptTable(t: Dict<string, Correction>)
  {
    |t| == 15 && WellFormedTable(t) &&
    (forall k :: 0 <= k < 15 ==> SyndromeValue(t[k].0) == Some(CorrectionValues[k])) &&
    t[0] == ("0000", ('I', None)) && t[1] == ("1110", ('Z', Some(4))) &&
    (forall k :: 1 <= k < 15 ==>
      (t[k].1.0 == 'X' || t[k].1.0 == 'Y' || t[k].1.0 == 'Z') && t[k].1 != ('X', Some(0)))
  }

  /** The dict the literal evaluates to: the second "1110" replaces the
      value of the first one in the first one's place, so there are 15
      distinct keys. */
  function Corrections(): (t: Dict<string, Correction>)
    ensures t == CorrectionLiteral[..15][1 := ("1110", ('Z', Some(4)))]
    ensures ScriptTable(t)
  {
    LiteralKeys();
    LiteralLabels();
    assert CorrectionLiteral == CorrectionLiteral[..15] + [("1110", ('Z', Some(4)))];
    FromLiteralRepeatLast(CorrectionLiteral[..15], "1110", ('Z', Some(4)), 1);
    FromLiteral(CorrectionLiteral)
  }

  /** What such a dict means: "1110" means Z on qubit 4, and the keys are
      those of every syndrome value below 16 except 4, that is every 4-bit
      key except "0010". */
  lemma ScriptTableSpec(t: Dict<string, Correction>)
    requires ScriptTable(t)
    ensures Get(t, "1110") == Some(('Z', Some(4)))
    ensures forall v :: 0 <= v < 16 ==>
      (v != 4 <==> exists k :: 0 <= k < 15 && SyndromeValue(t[k].0) == Some(v))
    ensures !HasKey(t, "0010")
  {
    UniqueIndex(t, "1110", 1);
    ValueIndexSpec();
    forall v | 0 <= v < 16 && v != 4
      ensures exists k :: 0 <= k < 15 && SyndromeValue(t[k].0) == Some(v)
    {
      assert SyndromeValue(t[ValueIndex[v]].0) == Some(v);
    }
    assert SyndromeValue("0010") == Some(4) by {
      SyndromeValueOfFour("0010");
    }
  }

  /** The dict of the script has these properties. */
  lemma CorrectionsSpec()
    ensures Get(Corrections(), "1110") == Some(('Z', Some(4)))
    ensures !HasKey(Corrections(), "0010")
  {
    ScriptTableSpec(Corrections());
  }

  /** For each syndrome value other than 4, the position in CorrectionValues
      holding it. */
  const ValueIndex: seq<int> := [0, 10, 6, 7, -1, 8, 12, 1, 14, 3, 13, 5, 9, 4, 2, 11]

  lemma ValueIndexSpec()
    ensures forall v :: 0 <= v < 16 && v != 4 ==> 0 <= ValueIndex[v] < 15 && CorrectionValues[ValueIndex[v]] == v
    ensures forall k :: 0 <= k < 15 ==> CorrectionValues[k] != 4
  {
  }

  /** The body appended inside `if_test`: the Pauli named by `corr` on `q`. */
  function CorrectionBody(corr: char, q: Qubit): seq<Instr>
  {
    if corr == 'X' then [X(q)]
    else if corr == 'Y' then [Y(q)]
    else if corr == 'Z' then [Z(q)]
    else []
  }

  /** The conditional block the loop emits for one entry, none for 'I'. */
  function EntryBlock(e: (string, Correction)): seq<Instr>
    requires WellFormedEntry(e)
  {
    if e.1.0 == 'I' then []
    else
      SyndromeValueDefined(e.0);
      [IfTest("s", SyndromeValue(e.0).value, CorrectionBody(e.1.0, Data(e.1.1.value)))]
  }

  /** The blocks of the first `n` entries, in dict order. */
  function CorrectionBlocks(t: Dict<string, Correction>, n: nat): seq<Instr>
    requires n <= |t| && forall k :: 0 <= k < |t| ==> WellFormedEntry(t[k])
  {
    if n == 0 then [] else CorrectionBlocks(t, n - 1) + EntryBlock(t[n - 1])
  }

  /** For a table whose first entry is the only 'I': entry `k + 1` gives
      block `k`, so there is one block per other entry. */
  lemma {:induction false} CorrectionBlocksSkipFirst(t: Dict<string, Correction>, n: nat)
    requires 1 <= n <= |t| && forall k :: 0 <= k < |t| ==> WellFormedEntry(t[k])
    requires t[0].1.0 == 'I' && forall k :: 1 <= k < |t| ==> t[k].1.0 != 'I'
    ensures |CorrectionBlocks(t, n)| == n - 1
    ensures forall k :: 0 <= k < n - 1 ==> [CorrectionBlocks(t, n)[k]] == EntryBlock(t[k + 1])
  {
    if n > 1 {
      CorrectionBlocksSkipFirst(t, n - 1);
    }
  }

  /** The block of an X, Y or Z entry: a test of register `s` against the
      key's syndrome value, below 16, around that one Pauli gate. */
  lemma EntryBlockSpec(e: (string, Correction))
    requires WellFormedEntry(e) && (e.1.0 == 'X' || e.1.0 == 'Y' || e.1.0 == 'Z')
    ensures |EntryBlock(e)| == 1
    ensures EntryBlock(e)[0].IfTest? && EntryBlock(e)[0].creg == "s"
    ensures Some(EntryBlock(e)[0].value) == SyndromeValue(e.0) && EntryBlock(e)[0].value < 16
    ensures |EntryBlock(e)[0].body| == 1 && IsPauliOn(EntryBlock(e)[0].body[0], e.1.1.value)
    ensures EntryBlock(e)[0].body[0] == PauliGate(PauliOf(e.1.0), Data(e.1.1.value))
  {
    SyndromeValueDefined(e.0);
    SyndromeValueBits(e.0);
    assert Pow2(4) == 16;
  }

  /** The Pauli a correction label names. */
  function PauliOf(c: char): Pauli
  {
    if c == 'X' then PX else if c == 'Y' then PY else PZ
  }

  /** The correction stage for the script's dict: 14 blocks, block `k`
      coming from entry `k + 1`, testing syndrome value CorrectionValues[k + 1]
      (so no two blocks test the same value and at most one fires) and
      holding one Pauli gate on a data qubit; the first block tests 7 (key
      "1110") and applies Z to qubit 4, and no block applies X to qubit 0. */
  lemma CorrectionStage(t: Dict<string, Correction>)
    requires ScriptTable(t)
    ensures |CorrectionBlocks(t, 15)| == 14
    ensures forall k :: 0 <= k < 14 ==> [CorrectionBlocks(t, 15)[k]] == EntryBlock(t[k + 1])
    ensures forall k :: 0 <= k < 14 ==>
      var g := CorrectionBlocks(t, 15)[k];
      g.IfTest? && g.creg == "s" && g.value == CorrectionValues[k + 1] &&
      |g.body| == 1 && IsPauliBelow(g.body[0], 5) && g.body != [X(Data(0))]
    ensures forall k, k' :: 0 <= k < k' < 14 ==>
      CorrectionBlocks(t, 15)[k].value != CorrectionBlocks(t, 15)[k'].value
    ensures CorrectionBlocks(t, 15)[0] == IfTest("s", 7, [Z(Data(4))])
  {
    CorrectionBlocksSkipFirst(t, 15);
    CorrectionValuesDistinct();
    var b := CorrectionBlocks(t, 15);
    forall k | 0 <= k < 14
      ensures b[k].IfTest? && b[k].creg == "s" && b[k].value == CorrectionValues[k + 1]
      ensures |b[k].body| == 1 && IsPauliBelow(b[k].body[0], 5) && b[k].body != [X(Data(0))]
    {
      var e := t[k + 1];
      EntryBlockSpec(e);
      assert [b[k]] == EntryBlock(e);
      assert b[k] == EntryBlock(e)[0];
      assert b[k].body[0] == PauliGate(PauliOf(e.1.0), Data(e.1.1.value));
    }
  }

  /** The script's dict gives that correction stage. */
  lemma CorrectionsStage()
    ensures |CorrectionBlocks(Corrections(), 15)| == 14
    ensures CorrectionBlocks(Corrections(), 15)[0] == IfTest("s", 7, [Z(Data(4))])
  {
    CorrectionStage(Corrections());
  }

  // ---------------------------------------------------------------------
  // The whole circuit

  /** The instructions `five_qubits_with_random_Pauli(0, 0, p)` appends, with
      `r(j)` the sample drawn for data qubit `j`, generators `ps` and the
      evaluated correction dict `t`. */
  function CircuitOf(p: real, r: nat -> real, ps: seq<string>, t: Dict<string, Correction>): seq<Instr>
    requires BuildInputs(ps, t)
  {
    Encoder() + [Barrier(QReg("q", 5))] +
    ErrorGates(p, r, 5) + [Barrier(QReg("q", 5))] +
    StabilizerGates(ps, 4) + SyndromeMeasurements() + [Barrier(AllQubits())] +
    CorrectionBlocks(t, |t|) + [Barrier(AllQubits())] +
    Decoder() + [Measure(Data(0), Logical())]
  }

  /** Four generators of five characters, and a dict whose entries the
      correction loop can process. */
  predicate BuildInputs(ps: seq<string>, t: Dict<string, Correction>)
  {
    |ps| == 4 && (forall i :: 0 <= i < 4 ==> |ps[i]| == 5) &&
    forall k :: 0 <= k < |t| ==> WellFormedEntry(t[k])
  }

  /** The script's generators and correction dict. */
  predicate ScriptConstants(ps: seq<string>, t: Dict<string, Correction>)
  {
    BuildInputs(ps, t) && (forall i :: 0 <= i < 4 ==> GeneratorShape(ps[i])) && ScriptTable(t)
  }

  /** The circuit has 59 instructions besides the error gates, so at most 64. */
  lemma CircuitLength(p: real, r: nat -> real, ps: seq<string>, t: Dict<string, Correction>)
    requires ScriptConstants(ps, t)
    ensures |CircuitOf(p, r, ps, t)| == 59 + |ErrorGates(p, r, 5)| <= 64
  {
    StabilizerBlocks(ps, 4);
    CorrectionStage(t);
    ErrorGatesShape(p, r, 5);
  }

  /** The script's own generators and dict satisfy ScriptConstants. */
  lemma ScriptConstantsHold()
    ensures ScriptConstants(Stabilizers, Corrections())
  {
    StabilizersShape();
  }

  /** The circuit of the script itself. */
  function ScriptCircuit(p: real, r: nat -> real): seq<Instr>
  {
    ScriptConstantsHold();
    CircuitOf(p, r, Stabilizers, Corrections())
  }

  /** A top-level X, Y or Z gate. */
  predicate IsPauli(g: Instr)
  {
    g.X? || g.Y? || g.Z?
  }

  predicate IsMeasure(g: Instr)
  {
    g.Measure?
  }

  /** The instructions of `ops` that satisfy `keep`, in order. */
  function Select(ops: seq<Instr>, keep: Instr -> bool): (m: seq<Instr>)
    ensures |m| <= |ops|
    ensures forall k :: 0 <= k < |m| ==> keep(m[k])
  {
    if ops == [] then []
    else Select(ops[..|ops| - 1], keep) + (if keep(ops[|ops| - 1]) then [ops[|ops| - 1]] else [])
  }

  lemma {:induction false} SelectAppend(a: seq<Instr>, b: seq<Instr>, keep: Instr -> bool)
    ensures Select(a + b, keep) == Select(a, keep) + Select(b, keep)
    decreases |b|
  {
    if b != [] {
      assert (a + b)[..|a + b| - 1] == a + b[..|b| - 1];
      SelectAppend(a, b[..|b| - 1], keep);
    } else {
      assert a + b == a;
    }
  }

  /** Selecting keeps nothing from a list with no wanted instruction. */
  lemma {:induction false} SelectNone(ops: seq<Instr>, keep: Instr -> bool)
    requires forall k :: 0 <= k < |ops| ==> !keep(ops[k])
    ensures Select(ops, keep) == []
  {
    if ops != [] {
      var init := ops[..|ops| - 1];
      assert forall k :: 0 <= k < |init| ==> init[k] == ops[k];
      SelectNone(init, keep);
    }
  }

  /** Selecting keeps everything from a list of wanted instructions. */
  lemma {:induction false} SelectAll(ops: seq<Instr>, keep: Instr -> bool)
    requires forall k :: 0 <= k < |ops| ==> keep(ops[k])
    ensures Select(ops, keep) == ops
  {
    if ops != [] {
      var init := ops[..|ops| - 1];
      assert forall k :: 0 <= k < |init| ==> init[k] == ops[k];
      SelectAll(init, keep);
      assert init + [ops[|ops| - 1]] == ops;
    }
  }

  /** The stabilizer stage has only H, CX and CZ gates. */
  lemma {:induction false} StabilizerGatesKinds(ps: seq<string>, n: nat)
    requires n <= |ps|
    ensures forall k :: 0 <= k < |StabilizerGates(ps, n)| ==>
      var g := StabilizerGates(ps, n)[k]; g.H? || g.CX? || g.CZ?
  {
    if n > 0 {
      StabilizerGatesKinds(ps, n - 1);
      ParityGatesShape(ps[n - 1], n - 1, |ps[n - 1]|);
      var prev := StabilizerGates(ps, n - 1);
      var block := StabilizerBlock(ps[n - 1], n - 1);
      var all := StabilizerGates(ps, n);
      assert all == prev + block;
      forall k | 0 <= k < |all| ensures all[k].H? || all[k].CX? || all[k].CZ? {
        if k < |prev| {
          assert all[k] == prev[k];
        } else if k - |prev| > 0 && k - |prev| < |block| - 1 {
          assert all[k] == ParityGates(ps[n - 1], n - 1, |ps[n - 1]|)[k - |prev| - 1];
        }
      }
    }
  }

  /** The correction stage has only conditional blocks. */
  lemma {:induction false} CorrectionBlocksKinds(t: Dict<string, Correction>, n: nat)
    requires n <= |t| && forall k :: 0 <= k < |t| ==> WellFormedEntry(t[k])
    ensures forall k :: 0 <= k < |CorrectionBlocks(t, n)| ==> CorrectionBlocks(t, n)[k].IfTest?
  {
    if n > 0 {
      CorrectionBlocksKinds(t, n - 1);
      var prev := CorrectionBlocks(t, n - 1);
      var all := CorrectionBlocks(t, n);
      assert all == prev + EntryBlock(t[n - 1]);
      forall k | 0 <= k < |all| ensures all[k].IfTest? {
        if k < |prev| {
          assert all[k] == prev[k];
        }
      }
    }
  }

  /** Selecting from the circuit selects from each stage in turn. */
  lemma SelectCircuit(p: real, r: nat -> real, ps: seq<string>, t: Dict<string, Correction>, keep: Instr -> bool)
    requires BuildInputs(ps, t) && ScriptTable(t)
    ensures Select(CircuitOf(p, r, ps, t), keep) ==
      Select(Encoder(), keep) + Select([Barrier(QReg("q", 5))], keep) +
      Select(ErrorGates(p, r, 5), keep) + Select([Barrier(QReg("q", 5))], keep) +
      Select(StabilizerGates(ps, 4), keep) + Select(SyndromeMeasurements(), keep) +
      Select([Barrier(AllQubits())], keep) + Select(CorrectionBlocks(t, |t|), keep) +
      Select([Barrier(AllQubits())], keep) + Select(Decoder(), keep) +
      Select([Measure(Data(0), Logical())], keep)
  {
    var s1 := Encoder() + [Barrier(QReg("q", 5))];
    var s2 := s1 + ErrorGates(p, r, 5);
    var s3 := s2 + [Barrier(QReg("q", 5))];
    var s4 := s3 + StabilizerGates(ps, 4);
    var s5 := s4 + SyndromeMeasurements();
    var s6 := s5 + [Barrier(AllQubits())];
    var s7 := s6 + CorrectionBlocks(t, |t|);
    var s8 := s7 + [Barrier(AllQubits())];
    var s9 := s8 + Decoder();
    SelectAppend(Encoder(), [Barrier(QReg("q", 5))], keep);
    SelectAppend(s1, ErrorGates(p, r, 5), keep);
    SelectAppend(s2, [Barrier(QReg("q", 5))], keep);
    SelectAppend(s3, StabilizerGates(ps, 4), keep);
    SelectAppend(s4, SyndromeMeasurements(), keep);
    SelectAppend(s5, [Barrier(AllQubits())], keep);
    SelectAppend(s6, CorrectionBlocks(t, |t|), keep);
    SelectAppend(s7, [Barrier(AllQubits())], keep);
    SelectAppend(s8, Decoder(), keep);
    SelectAppend(s9, [Measure(Data(0), Logical())], keep);
  }

  // The three Join lemmas below are plain facts about concatenation with no
  // counterpart in the script: each states one regrouping of the eleven
  // stages on unconstrained lists, so that the whole-circuit lemmas do not
  // make the solver regroup the concrete stages itself.

  /** Eleven lists joined, where all but the sixth and the last are empty. */
  lemma JoinSixthAndLast(a1: seq<Instr>, a2: seq<Instr>, a3: seq<Instr>, a4: seq<Instr>, a5: seq<Instr>,
                         a6: seq<Instr>, a7: seq<Instr>, a8: seq<Instr>, a9: seq<Instr>, a10: seq<Instr>,
                         a11: seq<Instr>)
    requires a1 == a2 == a3 == a4 == a5 == a7 == a8 == a9 == a10 == []
    ensures a1 + a2 + a3 + a4 + a5 + a6 + a7 + a8 + a9 + a10 + a11 == a6 + a11
  {
  }

  /** Eleven lists joined, where all but the third are empty. */
  lemma JoinThird(a1: seq<Instr>, a2: seq<Instr>, a3: seq<Instr>, a4: seq<Instr>, a5: seq<Instr>,
                  a6: seq<Instr>, a7: seq<Instr>, a8: seq<Instr>, a9: seq<Instr>, a10: seq<Instr>,
                  a11: seq<Instr>)
    requires a1 == a2 == a4 == a5 == a6 == a7 == a8 == a9 == a10 == a11 == []
    ensures a1 + a2 + a3 + a4 + a5 + a6 + a7 + a8 + a9 + a10 + a11 == a3
  {
  }

  /** The fixed stages that measure nothing: encoder, decoder, barriers. */
  lemma FixedStagesMeasureFree()
    ensures Select(Encoder(), IsMeasure) == [] && Select(Decoder(), IsMeasure) == []
    ensures Select([Barrier(QReg("q", 5))], IsMeasure) == [] && Select([Barrier(AllQubits())], IsMeasure) == []
    ensures Select(SyndromeMeasurements(), IsMeasure) == SyndromeMeasurements()
    ensures Select([Measure(Data(0), Logical())], IsMeasure) == [Measure(Data(0), Logical())]
  {
    SelectNone(Encoder(), IsMeasure);
    DecoderGates();
    SelectNone(Decoder(), IsMeasure);
    SelectNone([Barrier(QReg("q", 5))], IsMeasure);
    SelectNone([Barrier(AllQubits())], IsMeasure);
    SelectAll(SyndromeMeasurements(), IsMeasure);
    SelectAll([Measure(Data(0), Logical())], IsMeasure);
  }

  /** The error, stabilizer and correction stages measure nothing. */
  lemma StagesMeasureFree(p: real, r: nat -> real, ps: seq<string>, t: Dict<string, Correction>)
    requires |ps| == 4 && forall k :: 0 <= k < |t| ==> WellFormedEntry(t[k])
    ensures Select(ErrorGates(p, r, 5), IsMeasure) == []
    ensures Select(StabilizerGates(ps, 4), IsMeasure) == []
    ensures Select(CorrectionBlocks(t, |t|), IsMeasure) == []
  {
    ErrorGatesKinds(p, r);
    StabilizerGatesSelect(ps);
    CorrectionBlocksSelect(t);
  }

  /** The error step is all Pauli gates, so it holds no measurement. */
  lemma ErrorGatesKinds(p: real, r: nat -> real)
    ensures Select(ErrorGates(p, r, 5), IsPauli) == ErrorGates(p, r, 5)
    ensures Select(ErrorGates(p, r, 5), IsMeasure) == []
  {
    var e := ErrorGates(p, r, 5);
    ErrorGatesShape(p, r, 5);
    SelectAll(e, IsPauli);
    SelectNone(e, IsMeasure);
  }

  /** The stabilizer stage holds neither a measurement nor a Pauli gate. */
  lemma StabilizerGatesSelect(ps: seq<string>)
    requires |ps| == 4
    ensures Select(StabilizerGates(ps, 4), IsPauli) == []
    ensures Select(StabilizerGates(ps, 4), IsMeasure) == []
  {
    var g := StabilizerGates(ps, 4);
    StabilizerGatesKinds(ps, 4);
    SelectNone(g, IsPauli);
    SelectNone(g, IsMeasure);
  }

  /** The correction stage holds neither a measurement nor a top-level Pauli gate. */
  lemma CorrectionBlocksSelect(t: Dict<string, Correction>)
    requires forall k :: 0 <= k < |t| ==> WellFormedEntry(t[k])
    ensures Select(CorrectionBlocks(t, |t|), IsPauli) == []
    ensures Select(CorrectionBlocks(t, |t|), IsMeasure) == []
  {
    var g := CorrectionBlocks(t, |t|);
    CorrectionBlocksKinds(t, |t|);
    SelectNone(g, IsPauli);
    SelectNone(g, IsMeasure);
  }

  /** The fixed stages hold no top-level Pauli gate. */
  lemma FixedStagesPauliFree()
    ensures Select(Encoder(), IsPauli) == [] && Select(Decoder(), IsPauli) == []
    ensures Select([Barrier(QReg("q", 5))], IsPauli) == [] && Select([Barrier(AllQubits())], IsPauli) == []
    ensures Select(SyndromeMeasurements(), IsPauli) == []
    ensures Select([Measure(Data(0), Logical())], IsPauli) == []
  {
    SelectNone(Encoder(), IsPauli);
    DecoderGates();
    SelectNone(Decoder(), IsPauli);
    SelectNone([Barrier(QReg("q", 5))], IsPauli);
    SelectNone([Barrier(AllQubits())], IsPauli);
    SelectNone(SyndromeMeasurements(), IsPauli);
    SelectNone([Measure(Data(0), Logical())], IsPauli);
  }

  /** The error step is all Pauli gates; the stabilizer and correction
      stages hold none at top level (the corrections sit inside blocks). */
  lemma StagesPauli(p: real, r: nat -> real, ps: seq<string>, t: Dict<string, Correction>)
    requires |ps| == 4 && forall k :: 0 <= k < |t| ==> WellFormedEntry(t[k])
    ensures Select(ErrorGates(p, r, 5), IsPauli) == ErrorGates(p, r, 5)
    ensures Select(StabilizerGates(ps, 4), IsPauli) == []
    ensures Select(CorrectionBlocks(t, |t|), IsPauli) == []
  {
    ErrorGatesKinds(p, r);
    StabilizerGatesSelect(ps);
    CorrectionBlocksSelect(t);
  }

  /** The measurements of the circuit, in order: ancilla `i` into syndrome
      bit `i` for i = 0 .. 3, then data qubit 0 into `m`. */
  lemma CircuitMeasurements(p: real, r: nat -> real, ps: seq<string>, t: Dict<string, Correction>)
    requires BuildInputs(ps, t) && ScriptTable(t)
    ensures Select(CircuitOf(p, r, ps, t), IsMeasure) == SyndromeMeasurements() + [Measure(Data(0), Logical())]
  {
    SelectCircuit(p, r, ps, t, IsMeasure);
    FixedStagesMeasureFree();
    StagesMeasureFree(p, r, ps, t);
    JoinSixthAndLast(
      Select(Encoder(), IsMeasure), Select([Barrier(QReg("q", 5))], IsMeasure),
      Select(ErrorGates(p, r, 5), IsMeasure), Select([Barrier(QReg("q", 5))], IsMeasure),
      Select(StabilizerGates(ps, 4), IsMeasure), Select(SyndromeMeasurements(), IsMeasure),
      Select([Barrier(AllQubits())], IsMeasure), Select(CorrectionBlocks(t, |t|), IsMeasure),
      Select([Barrier(AllQubits())], IsMeasure), Select(Decoder(), IsMeasure),
      Select([Measure(Data(0), Logical())], IsMeasure));
  }

  /** The top-level Pauli gates of the circuit are exactly the error step's:
      every X, Y or Z outside a conditional block is a random error. */
  lemma CircuitPaulis(p: real, r: nat -> real, ps: seq<string>, t: Dict<string, Correction>)
    requires BuildInputs(ps, t) && ScriptTable(t)
    ensures Select(CircuitOf(p, r, ps, t), IsPauli) == ErrorGates(p, r, 5)
  {
    SelectCircuit(p, r, ps, t, IsPauli);
    FixedStagesPauliFree();
    StagesPauli(p, r, ps, t);
    JoinThird(
      Select(Encoder(), IsPauli), Select([Barrier(QReg("q", 5))], IsPauli),
      Select(ErrorGates(p, r, 5), IsPauli), Select([Barrier(QReg("q", 5))], IsPauli),
      Select(StabilizerGates(ps, 4), IsPauli), Select(SyndromeMeasurements(), IsPauli),
      Select([Barrier(AllQubits())], IsPauli), Select(CorrectionBlocks(t, |t|), IsPauli),
      Select([Barrier(AllQubits())], IsPauli), Select(Decoder(), IsPauli),
      Select([Measure(Data(0), Logical())], IsPauli));
  }

  /** At rate 0, with samples from [0, 1), the circuit holds no top-level
      Pauli gate at all. */
  lemma ZeroRateCircuit(r: nat -> real, ps: seq<string>, t: Dict<string, Correction>)
    requires BuildInputs(ps, t) && ScriptTable(t)
    requires forall j :: 0 <= j < 5 ==> r(j) >= 0.0
    ensures Select(CircuitOf(0.0, r, ps, t), IsPauli) == []
  {
    CircuitPaulis(0.0, r, ps, t);
    ZeroRateNoErrors(r, 5);
  }

  /** Eleven lists joined: the first comes first, and the tenth sits just
      before the last. */
  lemma JoinEnds(a1: seq<Instr>, a2: seq<Instr>, a3: seq<Instr>, a4: seq<Instr>, a5: seq<Instr>,
                 a6: seq<Instr>, a7: seq<Instr>, a8: seq<Instr>, a9: seq<Instr>, a10: seq<Instr>,
                 a11: seq<Instr>)
    ensures var c := a1 + a2 + a3 + a4 + a5 + a6 + a7 + a8 + a9 + a10 + a11;
      c[..|a1|] == a1 && c[|c| - |a11| - |a10| .. |c| - |a11|] == a10 && c[|c| - |a11|..] == a11
  {
    var c := a1 + a2 + a3 + a4 + a5 + a6 + a7 + a8 + a9 + a10 + a11;
    var front := a2 + a3 + a4 + a5 + a6 + a7 + a8 + a9;
    assert c == a1 + front + a10 + a11;
  }

  /** The circuit opens with the encoder and closes with the decoder, which
      is the encoder's inverse, followed by the measurement of data qubit 0. */
  lemma CircuitEnds(p: real, r: nat -> real, ps: seq<string>, t: Dict<string, Correction>)
    requires BuildInputs(ps, t) && ScriptTable(t)
    ensures var c := CircuitOf(p, r, ps, t);
      |c| >= 13 && c[..6] == Encoder() && c[|c| - 7 .. |c| - 1] == Decoder() &&
      c[|c| - 1] == Measure(Data(0), Logical()) &&
      Inverse(c[..6]) == Some(c[|c| - 7 .. |c| - 1])
  {
    DecoderIsInverse();
    var fm := [Measure(Data(0), Logical())];
    JoinEnds(Encoder(), [Barrier(QReg("q", 5))], ErrorGates(p, r, 5), [Barrier(QReg("q", 5))],
             StabilizerGates(ps, 4), SyndromeMeasurements(), [Barrier(AllQubits())],
             CorrectionBlocks(t, |t|), [Barrier(AllQubits())], Decoder(), fm);
    var c := CircuitOf(p, r, ps, t);
    assert c[|c| - 1] == c[|c| - 1..][0];
  }
}
