/**
 * `five_qubits_with_random_Pauli` as the sequence of calls it makes on a
 * `QuantumCircuit`, stage by stage, each stage proved to append exactly the
 * instructions FiveQubitCode.CircuitOf describes.
 */
module Builder {
  import opened Seqs
  import opened Wrappers
  import opened Circuits
  import opened Binary
  import opened PyDict
  import opened FiveQubitCode

  /** Where the data qubits, ancillas and classical bits sit among the
      declared bits. */
  lemma Declared()
    ensures forall j :: 0 <= j < 5 ==> Data(j) in QReg("q", 5) && Data(j) in AllQubits()
    ensures forall i :: 0 <= i < 4 ==> Anc(i) in AllQubits() && Anc(i) !in QReg("q", 5)
    ensures forall b :: b in QReg("a", 4) ==> b !in QReg("q", 5)
    ensures forall i :: 0 <= i < 4 ==> Syn(i) in CReg("s", 4) && Syn(i) in AllClbits()
    ensures forall c :: c in CReg("m", 1) ==> c !in CReg("s", 4)
    ensures Logical() in AllClbits()
  {
    var q, a := QReg("q", 5), QReg("a", 4);
    assert AllQubits() == q + a;
    forall j | 0 <= j < 5 ensures Data(j) in q && Data(j) in AllQubits() {
      assert q[j] == Data(j);
    }
    forall i | 0 <= i < 4 ensures Anc(i) in AllQubits() && Anc(i) !in q {
      assert a[i] == Anc(i);
      assert (q + a)[5 + i] == Anc(i);
    }
    var s, m := CReg("s", 4), CReg("m", 1);
    forall i | 0 <= i < 4 ensures Syn(i) in s && Syn(i) in AllClbits() {
      assert s[i] == Syn(i);
      assert (s + m)[i] == Syn(i);
    }
    assert (s + m)[4] == Logical();
  }

  /** Lines 33-38: the encoder. */
  method AppendEncoder(qc: Circuit)
    requires qc.Valid() && qc.qubits == QReg("q", 5)
    modifies qc
    ensures qc.Valid() && qc.qubits == old(qc.qubits) && qc.clbits == old(qc.clbits)
    ensures qc.ops == old(qc.ops) + Encoder()
  {
    Declared();
    qc.Append(H(Data(0)));
    qc.Append(CX(Data(0), Data(2)));
    qc.Append(CX(Data(2), Data(1)));
    qc.Append(CX(Data(1), Data(3)));
    qc.Append(CX(Data(3), Data(4)));
    qc.Append(CZ(Data(0), Data(4)));
  }

  /** Lines 46-53: one draw per data qubit, and the Pauli it selects. */
  method AppendErrors(qc: Circuit, p: real, r: nat -> real)
    requires qc.Valid() && qc.qubits == QReg("q", 5)
    modifies qc
    ensures qc.Valid() && qc.qubits == old(qc.qubits) && qc.clbits == old(qc.clbits)
    ensures qc.ops == old(qc.ops) + ErrorGates(p, r, 5)
  {
    Declared();
    for i := 0 to 5
      invariant qc.Valid() && qc.qubits == old(qc.qubits) && qc.clbits == old(qc.clbits)
      invariant qc.ops == old(qc.ops) + ErrorGates(p, r, i)
    {
      var ri := r(i);
      if ri < p / 3.0 {
        qc.Append(X(Data(i)));
      } else if ri < 2.0 * p / 3.0 {
        qc.Append(Y(Data(i)));
      } else if ri < p {
        qc.Append(Z(Data(i)));
      }
    }
  }

  /** Lines 70-74: a CX from data qubit `j` onto ancilla `i` for every 'X'
      of generator `s`, a CZ for every 'Z'. */
  method AppendParity(qc: Circuit, s: string, i: nat)
    requires qc.Valid() && qc.qubits == AllQubits() && i < 4 && |s| == 5
    modifies qc
    ensures qc.Valid() && qc.qubits == old(qc.qubits) && qc.clbits == old(qc.clbits)
    ensures qc.ops == old(qc.ops) + ParityGates(s, i, |s|)
  {
    Declared();
    for j := 0 to |s|
      invariant qc.Valid() && qc.qubits == old(qc.qubits) && qc.clbits == old(qc.clbits)
      invariant qc.ops == old(qc.ops) + ParityGates(s, i, j)
    {
      ghost var before := qc.ops;
      if s[j] == 'X' {
        qc.Append(CX(Data(j), Anc(i)));
      }
      if s[j] == 'Z' {
        qc.Append(CZ(Data(j), Anc(i)));
      }
      assert qc.ops == before + ParityGate(s[j], j, i);
    }
  }

  /** Lines 68-75: for each generator, H on its ancilla, its parity gates,
      and H again. */
  method AppendStabilizers(qc: Circuit, P: seq<string>)
    requires qc.Valid() && qc.qubits == AllQubits()
    requires |P| == 4 && forall i :: 0 <= i < 4 ==> |P[i]| == 5
    modifies qc
    ensures qc.Valid() && qc.qubits == old(qc.qubits) && qc.clbits == old(qc.clbits)
    ensures qc.ops == old(qc.ops) + StabilizerGates(P, 4)
  {
    Declared();
    for i := 0 to |P|
      invariant qc.Valid() && qc.qubits == old(qc.qubits) && qc.clbits == old(qc.clbits)
      invariant qc.ops == old(qc.ops) + StabilizerGates(P, i)
    {
      qc.Append(H(Anc(i)));
      AppendParity(qc, P[i], i);
      qc.Append(H(Anc(i)));
      BlockJoin(old(qc.ops), StabilizerGates(P, i), H(Anc(i)), ParityGates(P[i], i, |P[i]|));
    }
  }

  /** Appending H, the parity gates and H after `a + b` extends `b` by one block. */
  lemma BlockJoin(a: seq<Instr>, b: seq<Instr>, h: Instr, g: seq<Instr>)
    ensures a + b + [h] + g + [h] == a + (b + ([h] + g + [h]))
  {
  }

  /** Lines 81-84: ancilla `i` into syndrome bit `i`. */
  method AppendSyndromeMeasurements(qc: Circuit)
    requires qc.Valid() && qc.qubits == AllQubits() && qc.clbits == CReg("s", 4)
    modifies qc
    ensures qc.Valid() && qc.qubits == old(qc.qubits) && qc.clbits == old(qc.clbits)
    ensures qc.ops == old(qc.ops) + SyndromeMeasurements()
  {
    Declared();
    qc.Append(Measure(Anc(0), Syn(0)));
    qc.Append(Measure(Anc(1), Syn(1)));
    qc.Append(Measure(Anc(2), Syn(2)));
    qc.Append(Measure(Anc(3), Syn(3)));
  }

  /** Lines 125-131: the block for one entry that is not 'I': a test of
      register `s` against `int(key[::-1], 2)` around the named Pauli gate. */
  method AppendEntryBlock(qc: Circuit, sType: string, corr: char, qidx: Option<nat>)
    requires qc.Valid() && qc.qubits == AllQubits() && qc.clbits == CReg("s", 4)
    requires WellFormedEntry((sType, (corr, qidx))) && corr != 'I'
    modifies qc
    ensures qc.Valid() && qc.qubits == old(qc.qubits) && qc.clbits == old(qc.clbits)
    ensures qc.ops == old(qc.ops) + EntryBlock((sType, (corr, qidx)))
  {
    Declared();
    SyndromeValueDefined(sType);
    var sInt := ParseBinary(Reverse(sType)).value;
    var body: seq<Instr> := [];
    if corr == 'X' {
      body := [X(Data(qidx.value))];
    } else if corr == 'Y' {
      body := [Y(Data(qidx.value))];
    } else if corr == 'Z' {
      body := [Z(Data(qidx.value))];
    }
    assert Syn(0) in qc.clbits;
    qc.Append(IfTest("s", sInt, body));
  }

  /** Lines 121-131: every dict entry in order, skipping 'I'. */
  method AppendCorrections(qc: Circuit, corrections: Dict<string, Correction>)
    requires qc.Valid() && qc.qubits == AllQubits() && qc.clbits == CReg("s", 4)
    requires forall k :: 0 <= k < |corrections| ==> WellFormedEntry(corrections[k])
    modifies qc
    ensures qc.Valid() && qc.qubits == old(qc.qubits) && qc.clbits == old(qc.clbits)
    ensures qc.ops == old(qc.ops) + CorrectionBlocks(corrections, |corrections|)
  {
    for k := 0 to |corrections|
      invariant qc.Valid() && qc.qubits == old(qc.qubits) && qc.clbits == old(qc.clbits)
      invariant qc.ops == old(qc.ops) + CorrectionBlocks(corrections, k)
    {
      var (sType, (corr, qidx)) := corrections[k];
      assert (sType, (corr, qidx)) == corrections[k];
      assert old(qc.ops) + CorrectionBlocks(corrections, k + 1) ==
        (old(qc.ops) + CorrectionBlocks(corrections, k)) + EntryBlock(corrections[k]);
      if corr == 'I' {
        continue;
      }
      AppendEntryBlock(qc, sType, corr, qidx);
    }
  }

  /** The decoder's gates act on declared data qubits. */
  lemma DecoderWellFormed(cs: seq<Clbit>)
    ensures forall k :: 0 <= k < |Decoder()| ==> WellFormed(Decoder()[k], AllQubits(), cs)
  {
    Declared();
    DecoderGates();
  }

  /** Lines 11-12 and 33-56: the data register, the encoder, the inverse
      kept for later, and the error step between two barriers. */
  method BuildFront(p: real, r: nat -> real) returns (qcirc: Circuit, dcirc: Option<seq<Instr>>)
    ensures fresh(qcirc) && qcirc.Valid()
    ensures qcirc.qubits == QReg("q", 5) && qcirc.clbits == []
    ensures qcirc.ops == Encoder() + [Barrier(QReg("q", 5))] + ErrorGates(p, r, 5) + [Barrier(QReg("q", 5))]
    ensures dcirc == Some(Decoder())
  {
    var qr := QReg("q", 5);
    qcirc := new Circuit(qr);
    AppendEncoder(qcirc);
    assert qcirc.ops == Encoder();
    dcirc := Inverse(qcirc.ops);
    DecoderIsInverse();
    qcirc.AddBarrier();
    AppendErrors(qcirc, p, r);
    qcirc.AddBarrier();
  }

  /** Lines 60-86: the ancilla register, the stabilizer circuits, the
      syndrome register and its measurements, and a barrier. */
  method BuildSyndrome(qcirc: Circuit, P: seq<string>)
    requires qcirc.Valid() && qcirc.qubits == QReg("q", 5) && qcirc.clbits == []
    requires |P| == 4 && forall i :: 0 <= i < 4 ==> |P[i]| == 5
    modifies qcirc
    ensures qcirc.Valid() && qcirc.qubits == AllQubits() && qcirc.clbits == CReg("s", 4)
    ensures qcirc.ops == old(qcirc.ops) + StabilizerGates(P, 4) + SyndromeMeasurements() + [Barrier(AllQubits())]
  {
    Declared();
    var ar := QReg("a", 4);
    qcirc.AddQuantumRegister(ar);
    AppendStabilizers(qcirc, P);
    var sy := CReg("s", 4);
    qcirc.AddClassicalRegister(sy);
    AppendSyndromeMeasurements(qcirc);
    qcirc.AddBarrier();
  }

  /** Lines 121-141: the correction blocks, a barrier, the decoder composed
      onto the data qubits, the register m and the final measurement. */
  method BuildBack(qcirc: Circuit, corrections: Dict<string, Correction>, dcirc: seq<Instr>)
    requires qcirc.Valid() && qcirc.qubits == AllQubits() && qcirc.clbits == CReg("s", 4)
    requires forall k :: 0 <= k < |corrections| ==> WellFormedEntry(corrections[k])
    requires dcirc == Decoder()
    modifies qcirc
    ensures qcirc.Valid() && qcirc.qubits == AllQubits() && qcirc.clbits == AllClbits()
    ensures qcirc.ops == old(qcirc.ops) + CorrectionBlocks(corrections, |corrections|) +
      [Barrier(AllQubits())] + Decoder() + [Measure(Data(0), Logical())]
  {
    Declared();
    AppendCorrections(qcirc, corrections);
    qcirc.AddBarrier();
    DecoderWellFormed(qcirc.clbits);
    qcirc.Compose(dcirc);
    var mr := CReg("m", 1);
    qcirc.AddClassicalRegister(mr);
    qcirc.Append(Measure(Data(0), Logical()));
  }

  /** Lines 11-12 and 33-141 for generators `P` and the evaluated dict
      `corrections`: the circuit CircuitOf describes, on the registers q, a,
      s and m. */
  method Build(p: real, r: nat -> real, P: seq<string>, corrections: Dict<string, Correction>)
    returns (qcirc: Circuit)
    requires BuildInputs(P, corrections)
    ensures fresh(qcirc) && qcirc.Valid()
    ensures qcirc.qubits == AllQubits() && qcirc.clbits == AllClbits()
    ensures qcirc.ops == CircuitOf(p, r, P, corrections)
  {
    var dcirc;
    qcirc, dcirc := BuildFront(p, r);
    BuildSyndrome(qcirc, P);
    BuildBack(qcirc, corrections, dcirc.value);
  }

  /** Build with the script's own generators and dict. */
  method BuildScript(p: real, r: nat -> real) returns (qcirc: Circuit)
    ensures fresh(qcirc) && qcirc.Valid()
    ensures qcirc.qubits == AllQubits() && qcirc.clbits == AllClbits()
    ensures qcirc.ops == ScriptCircuit(p, r)
  {
    ScriptConstantsHold();
    qcirc := Build(p, r, Stabilizers, Corrections());
  }

  /** `five_qubits_with_random_Pauli(x1, x2, p)`, where `r(j)` is the value
      of the `j`-th call of `np.random.rand()`. Only the flags (0, 0) reach
      the encoder: the other three pairs raise NameError and any other
      flags UnboundLocalError. Otherwise the circuit is CircuitOf over the
      script's generators and evaluated dict (ScriptCircuit), on the
      registers q, a, s, m. */
  method FiveQubitsWithRandomPauli(x1: int, x2: int, p: real, r: nat -> real)
    returns (res: Result<Circuit, PyError>)
    ensures res.Err? <==> PreparationError(x1, x2).Some?
    ensures res.Err? ==> res.error == PreparationError(x1, x2).value
    ensures res.Ok? ==> fresh(res.value) && res.value.Valid()
    ensures res.Ok? ==> res.value.qubits == AllQubits() && res.value.clbits == AllClbits()
    ensures res.Ok? ==> res.value.ops == ScriptCircuit(p, r)
  {
    var prep := PreparationError(x1, x2);
    if prep.Some? {
      return Err(prep.value);
    }
    var qcirc := BuildScript(p, r);
    return Ok(qcirc);
  }
}
