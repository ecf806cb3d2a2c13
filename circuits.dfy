/**
 * Quantum circuits as the builder sees them: registers of bits and an
 * append-only list of instructions. Only the instruction list is modelled;
 * no amplitudes are formed.
 */
module Circuits {
  import opened Seqs
  import opened Wrappers

  /** A qubit, named like a qiskit bit: its register's name and its index there. */
  datatype Qubit = Qubit(reg: string, index: nat)

  /** A classical bit, named the same way. */
  datatype Clbit = Clbit(reg: string, index: nat)

  /** The three Pauli operators applied as errors and as corrections. */
  datatype Pauli = PX | PY | PZ

  /** One circuit instruction. `IfTest(reg, v, body)` runs `body` only when
      the classical register `reg`, read as an unsigned integer with bit 0
      least significant, equals `v`. */
  datatype Instr =
    | H(q: Qubit)
    | X(q: Qubit)
    | Y(q: Qubit)
    | Z(q: Qubit)
    | CX(control: Qubit, target: Qubit)
    | CZ(control: Qubit, target: Qubit)
    | Measure(q: Qubit, c: Clbit)
    | Barrier(qs: seq<Qubit>)
    | IfTest(creg: string, value: nat, body: seq<Instr>)

  /** The instruction applying Pauli `k` to `q`. */
  function PauliGate(k: Pauli, q: Qubit): (g: Instr)
    ensures (g.X? || g.Y? || g.Z?) && g.q == q
  {
    match k
    case PX => X(q)
    case PY => Y(q)
    case PZ => Z(q)
  }

  /** The bits of a register of `size` bits called `name`. */
  function QReg(name: string, size: nat): (r: seq<Qubit>)
    ensures |r| == size && Distinct(r)
    ensures forall k :: 0 <= k < size ==> r[k] == Qubit(name, k)
  {
    seq(size, k requires 0 <= k => Qubit(name, k))
  }

  function CReg(name: string, size: nat): (r: seq<Clbit>)
    ensures |r| == size && Distinct(r)
    ensures forall k :: 0 <= k < size ==> r[k] == Clbit(name, k)
  {
    seq(size, k requires 0 <= k => Clbit(name, k))
  }

  /** `op` only touches declared bits (and a two-qubit gate two different
      qubits); this is what qiskit checks when an instruction is appended. */
  predicate WellFormed(op: Instr, qs: seq<Qubit>, cs: seq<Clbit>)
    decreases op
  {
    match op
    case H(q) => q in qs
    case X(q) => q in qs
    case Y(q) => q in qs
    case Z(q) => q in qs
    case CX(c, t) => c in qs && t in qs && c != t
    case CZ(c, t) => c in qs && t in qs && c != t
    case Measure(q, c) => q in qs && c in cs
    case Barrier(bs) => forall b :: b in bs ==> b in qs
    case IfTest(reg, _, body) =>
      (exists c :: c in cs && c.reg == reg) &&
      forall g :: g in body ==> WellFormed(g, qs, cs)
  }

  /** Declaring more bits never makes an instruction ill-formed. */
  lemma {:induction false} WellFormedGrows(op: Instr, qs: seq<Qubit>, cs: seq<Clbit>, qs': seq<Qubit>, cs': seq<Clbit>)
    requires WellFormed(op, qs, cs)
    requires forall b :: b in qs ==> b in qs'
    requires forall c :: c in cs ==> c in cs'
    ensures WellFormed(op, qs', cs')
    decreases op
  {
    match op
    case IfTest(reg, _, body) =>
      forall g | g in body ensures WellFormed(g, qs', cs') {
        WellFormedGrows(g, qs, cs, qs', cs');
      }
    case _ =>
  }

  /** The unitary gates of the circuit are all their own inverses. */
  predicate SelfInverse(g: Instr)
  {
    g.H? || g.X? || g.Y? || g.Z? || g.CX? || g.CZ?
  }

  /** qiskit's `inverse()` of one instruction: a self-inverse gate and a
      barrier are kept, a measurement or a conditional block cannot be
      inverted. */
  function InverseOf(g: Instr): (r: Option<Instr>)
    ensures r.Some? <==> !g.Measure? && !g.IfTest?
    ensures SelfInverse(g) ==> r == Some(g)
    ensures r.Some? ==> r.value == g
  {
    match g
    case Measure(_, _) => None
    case IfTest(_, _, _) => None
    case _ => Some(g)
  }

  /** qiskit's `QuantumCircuit.inverse()` on the instruction list: each
      instruction inverted, in reverse order; `None` when one cannot be. */
  function Inverse(ops: seq<Instr>): Option<seq<Instr>>
  {
    if ops == [] then Some([])
    else
      match (InverseOf(ops[0]), Inverse(ops[1..]))
      case (Some(g), Some(rest)) => Some(rest + [g])
      case _ => None
  }

  predicate AllSelfInverse(ops: seq<Instr>)
  {
    forall k :: 0 <= k < |ops| ==> SelfInverse(ops[k])
  }

  /** The inverse exists exactly when no instruction is a measurement or a
      conditional block. */
  lemma {:induction false} InverseDefined(ops: seq<Instr>)
    ensures Inverse(ops).Some? <==> forall k :: 0 <= k < |ops| ==> !ops[k].Measure? && !ops[k].IfTest?
  {
    if ops != [] {
      InverseDefined(ops[1..]);
      assert forall k :: 1 <= k < |ops| ==> ops[k] == ops[1..][k - 1];
    }
  }

  /** For a list of self-inverse gates the inverse is just the reversed list. */
  lemma {:induction false} InverseOfSelfInverse(ops: seq<Instr>)
    requires AllSelfInverse(ops)
    ensures Inverse(ops) == Some(Reverse(ops))
  {
    if ops != [] {
      assert SelfInverse(ops[0]);
      assert AllSelfInverse(ops[1..]) by {
        forall k | 0 <= k < |ops[1..]| ensures SelfInverse(ops[1..][k]) {
          assert ops[1..][k] == ops[k + 1];
        }
      }
      InverseOfSelfInverse(ops[1..]);
      assert Reverse(ops) == Reverse(ops[1..]) + [ops[0]];
      assert InverseOf(ops[0]) == Some(ops[0]);
    }
  }

  /** Inverting a concatenation inverts the parts and swaps them. */
  lemma {:induction false} InverseAppend(a: seq<Instr>, b: seq<Instr>)
    ensures Inverse(a + b) ==
      match (Inverse(a), Inverse(b))
      case (Some(ia), Some(ib)) => Some(ib + ia)
      case _ => None
  {
    if a == [] {
      assert a + b == b;
      if Inverse(b).Some? {
        assert Inverse(b).value + [] == Inverse(b).value;
      }
    } else {
      assert (a + b)[0] == a[0];
      assert (a + b)[1..] == a[1..] + b;
      InverseAppend(a[1..], b);
      match (InverseOf(a[0]), Inverse(a[1..]), Inverse(b))
      case (Some(g), Some(ia), Some(ib)) =>
        assert Inverse(a) == Some(ia + [g]);
        assert Inverse(a + b) == Some((ib + ia) + [g]);
        assert (ib + ia) + [g] == ib + (ia + [g]);
      case _ =>
    }
  }

  /** Inverting twice gives the circuit back. */
  lemma {:induction false} InverseInvolutive(ops: seq<Instr>)
    requires Inverse(ops).Some?
    ensures Inverse(Inverse(ops).value) == Some(ops)
  {
    if ops != [] {
      InverseInvolutive(ops[1..]);
      var rest := Inverse(ops[1..]).value;
      var g := InverseOf(ops[0]).value;
      InverseAppend(rest, [g]);
      assert g == ops[0];
      assert Inverse([g]) == Some([ops[0]]) by {
        assert [g][0] == g;
        assert [g][1..] == [];
        assert Inverse([g][1..]) == Some([]);
        assert InverseOf(g) == Some(g);
        assert [] + [g] == [g];
      }
      assert [ops[0]] + ops[1..] == ops;
    }
  }

  /** A stack with no two equal self-inverse gates next to each other. */
  predicate Reduced(st: seq<Instr>)
  {
    forall i :: 0 <= i < |st| - 1 ==> !(st[i] == st[i + 1] && SelfInverse(st[i]))
  }

  /** One step of peephole cancellation: a self-inverse gate equal to the
      top of the stack cancels it, anything else is pushed. */
  function Step(st: seq<Instr>, g: Instr): (r: seq<Instr>)
    ensures Reduced(st) ==> Reduced(r)
  {
    if |st| > 0 && st[|st| - 1] == g && SelfInverse(g) then st[..|st| - 1] else st + [g]
  }

  /** Cancellation of a whole list, pushed onto `st` gate by gate. */
  function Cancel(st: seq<Instr>, w: seq<Instr>): (r: seq<Instr>)
    ensures Reduced(st) ==> Reduced(r)
    decreases w
  {
    if w == [] then st else Cancel(Step(st, w[0]), w[1..])
  }

  lemma {:induction false} CancelAppend(st: seq<Instr>, a: seq<Instr>, b: seq<Instr>)
    ensures Cancel(st, a + b) == Cancel(Cancel(st, a), b)
    decreases a
  {
    if a == [] {
      assert a + b == b;
    } else {
      assert (a + b)[0] == a[0];
      assert (a + b)[1..] == a[1..] + b;
      CancelAppend(Step(st, a[0]), a[1..], b);
    }
  }

  /** Pushing the same self-inverse gate twice leaves a reduced stack as it was. */
  lemma StepTwice(st: seq<Instr>, g: Instr)
    requires Reduced(st) && SelfInverse(g)
    ensures Step(Step(st, g), g) == st
  {
    if |st| > 0 && st[|st| - 1] == g {
      var t := st[..|st| - 1];
      assert |t| > 0 ==> t[|t| - 1] == st[|st| - 2];
      assert t + [g] == st;
    } else {
      assert (st + [g])[..|st|] == st;
    }
  }

  /** A list of self-inverse gates followed by its own reversal cancels
      completely: this is why a decoder built as the reversed encoder undoes it. */
  lemma {:induction false} CancelMirror(st: seq<Instr>, w: seq<Instr>)
    requires Reduced(st) && AllSelfInverse(w)
    ensures Cancel(st, w + Reverse(w)) == st
    decreases w
  {
    if w != [] {
      var g, w' := w[0], w[1..];
      assert SelfInverse(g);
      assert AllSelfInverse(w') by {
        forall k | 0 <= k < |w'| ensures SelfInverse(w'[k]) {
          assert w'[k] == w[k + 1];
        }
      }
      assert Reverse(w) == Reverse(w') + [g];
      assert w + Reverse(w) == [g] + (w' + Reverse(w')) + [g];
      CancelAppend(st, [g] + (w' + Reverse(w')), [g]);
      CancelAppend(st, [g], w' + Reverse(w'));
      assert Cancel(st, [g]) == Step(st, g) by {
        assert [g][1..] == [];
      }
      CancelMirror(Step(st, g), w');
      assert Cancel(Step(st, g), [g]) == Step(Step(st, g), g) by {
        assert [g][1..] == [];
      }
      StepTwice(st, g);
    }
  }

  /**
   * A qiskit `QuantumCircuit` under construction: its declared qubits and
   * classical bits, in declaration order, and its instructions, in the order
   * they were appended.
   */
  class Circuit {
    var qubits: seq<Qubit>
    var clbits: seq<Clbit>
    var ops: seq<Instr>

    /** Every bit is declared once and every instruction is well formed. */
    ghost predicate Valid()
      reads this
    {
      Distinct(qubits) && Distinct(clbits) &&
      forall k :: 0 <= k < |ops| ==> WellFormed(ops[k], qubits, clbits)
    }

    /** `QuantumCircuit(reg)`: an empty circuit over one quantum register. */
    constructor (reg: seq<Qubit>)
      requires Distinct(reg)
      ensures Valid()
      ensures qubits == reg && clbits == [] && ops == []
    {
      qubits, clbits, ops := reg, [], [];
    }

    /** `add_register` for a quantum register, whose bits must be new. */
    method AddQuantumRegister(reg: seq<Qubit>)
      requires Valid() && Distinct(reg)
      requires forall b :: b in reg ==> b !in qubits
      modifies this
      ensures Valid()
      ensures qubits == old(qubits) + reg && clbits == old(clbits) && ops == old(ops)
    {
      forall k | 0 <= k < |ops| ensures WellFormed(ops[k], qubits + reg, clbits) {
        WellFormedGrows(ops[k], qubits, clbits, qubits + reg, clbits);
      }
      DistinctAppend(qubits, reg);
      qubits := qubits + reg;
    }

    /** `add_register` for a classical register, whose bits must be new. */
    method AddClassicalRegister(reg: seq<Clbit>)
      requires Valid() && Distinct(reg)
      requires forall c :: c in reg ==> c !in clbits
      modifies this
      ensures Valid()
      ensures clbits == old(clbits) + reg && qubits == old(qubits) && ops == old(ops)
    {
      forall k | 0 <= k < |ops| ensures WellFormed(ops[k], qubits, clbits + reg) {
        WellFormedGrows(ops[k], qubits, clbits, qubits, clbits + reg);
      }
      DistinctAppend(clbits, reg);
      clbits := clbits + reg;
    }

    /** `h`, `x`, `y`, `z`, `cx`, `cz`, `measure` and `if_test`: append one instruction. */
    method Append(op: Instr)
      requires Valid() && WellFormed(op, qubits, clbits)
      modifies this
      ensures Valid()
      ensures ops == old(ops) + [op] && qubits == old(qubits) && clbits == old(clbits)
    {
      ops := ops + [op];
    }

    /** `barrier()` with no arguments: a barrier across every declared qubit. */
    method AddBarrier()
      requires Valid()
      modifies this
      ensures Valid()
      ensures ops == old(ops) + [Barrier(old(qubits))] && qubits == old(qubits) && clbits == old(clbits)
    {
      ops := ops + [Barrier(qubits)];
    }

    /** `compose(other, inplace=True)` onto the circuit's own first qubits,
        in their order: the other circuit's instructions are appended. */
    method Compose(other: seq<Instr>)
      requires Valid()
      requires forall k :: 0 <= k < |other| ==> WellFormed(other[k], qubits, clbits)
      modifies this
      ensures Valid()
      ensures ops == old(ops) + other && qubits == old(qubits) && clbits == old(clbits)
    {
      ops := ops + other;
    }
  }
}
