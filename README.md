# Five-qubit code: circuit builder and success scoring

This project is a Dafny model of `scripts/plot_p_dependence.py`. The script
builds a circuit for the five-qubit error-correcting code, runs it on a
simulator, and plots how often the logical bit survives as the error rate
`p` grows. The model covers the discrete parts of the script.

- **Circuit.** Modelled as an append-only instruction list held by a `Circuit`
  class (`circuits.dfy`). Qubits and bits are (register, index) pairs, as in
  qiskit. `inverse()` and `compose()` are modelled by their effect on the list.
- **Builder.** `five_qubits_with_random_Pauli` is modelled as imperative
  methods that append to the circuit (`builder.dfy`). Each method is proved
  equal to a specification function of its stage (`code.dfy`). The stages
  are:
  - the state preparation;
  - the encoder;
  - the random Pauli error step;
  - the stabilizer loop;
  - the syndrome measurements;
  - the correction loop with its `if_test` blocks;
  - the decoder and the final measurement.
- **Correction dictionary.** Modelled exactly as Python evaluates the literal
  (`pydict.dfy`). Entries are stored left to right. The repeated key `'1110'`
  keeps its first position and takes the value of its last entry. The result
  is 15 keys, where the literal has 16 entries.
- **Key conversion.** `int(s_type[::-1], 2)`, together with `int(·, 2)` and
  `str.replace(" ", "")` (`binary.dfy`).
- **Scoring loop** (`scoring.dfy`). It models:
  - `max(counts, key=counts.get)`, which returns the first item with the
    largest count;
  - the parse of the spaceless outcome string;
  - the success test against the expected bit;
  - the per-`p` counter `successes`;
  - the list of success probabilities.

The simulator's counts and the random samples are not computed here. They
are parameters.
- `run(i, attempt)` gives the counts of attempt `attempt` at grid point `i`.
- `draw(i, attempt)` gives that attempt's error-step samples, one real per
  data qubit.

Python exceptions are modelled as `Err` values of the `PyError` datatype:
- `UnboundLocalError` and `NameError` from the state preparation;
- `ValueError` from `max` of an empty mapping and from an unparsable outcome.

Two consequences of the code as written:
- The score parses the whole outcome string. Without its spaces that string
  holds the four syndrome bits as well as the bit of `m`. So for
  `(x1, x2) = (0, 0)` an attempt succeeds exactly when every bit of the most
  frequent outcome is `0`.
- The dict literal repeats `'1110'`, so the table has 15 keys. The later
  `('Z', 4)` replaces `('X', 0)` in the first position, so X on qubit 0 is
  never emitted. Syndrome `'0010'` has no block, and nothing is applied when
  it is measured.

## Model

| member | source | states |
|---|---|---|
| Circuits.Circuit.constructor | scripts/plot_p_dependence.py:11-12 | a new circuit holds exactly the given quantum register, with no classical bits and no instructions |
| Circuits.Circuit.AddQuantumRegister | scripts/plot_p_dependence.py:60-61 | `add_register` appends the new, disjoint qubits and leaves the instructions and classical bits unchanged |
| Circuits.Circuit.AddClassicalRegister | scripts/plot_p_dependence.py:78-79 | appends the new, disjoint classical bits and leaves everything else unchanged |
| Circuits.Circuit.Append | scripts/plot_p_dependence.py:33-38 | a gate on declared bits is appended at the end; nothing else changes |
| Circuits.Circuit.AddBarrier | scripts/plot_p_dependence.py:41 | `barrier()` appends one barrier over all the qubits currently declared |
| Circuits.Circuit.Compose | scripts/plot_p_dependence.py:138 | `compose(…, inplace=True)` appends another instruction list after the existing one |
| Circuits.QReg | scripts/plot_p_dependence.py:11 | a register of `n` bits holds distinct bits, where bit `k` is (name, k) |
| Circuits.CReg | scripts/plot_p_dependence.py:78 | the same, for classical registers |
| Circuits.WellFormedGrows | scripts/plot_p_dependence.py:60-61 | an instruction valid on some registers stays valid once more registers are added |
| Circuits.Inverse | scripts/plot_p_dependence.py:40 | `inverse()`: the instructions in reverse order, each replaced by its inverse, undefined if any has none |
| Circuits.InverseOf | scripts/plot_p_dependence.py:40 | a gate has an inverse exactly when it is not a measurement or conditional; the inverse of each gate here is the gate itself |
| Circuits.InverseDefined | scripts/plot_p_dependence.py:40 | `inverse()` of a list is defined exactly when no instruction is a measurement or conditional |
| Circuits.InverseOfSelfInverse | scripts/plot_p_dependence.py:40 | the inverse of a list of self-inverse gates is the reversed list |
| Circuits.InverseAppend | scripts/plot_p_dependence.py:40 | the inverse of `a + b` is the inverse of `b` followed by the inverse of `a` |
| Circuits.InverseInvolutive | scripts/plot_p_dependence.py:40 | inverting twice gives back the original list |
| Circuits.CancelAppend | scripts/plot_p_dependence.py:40 | cancelling adjacent equal self-inverse gates is compositional over concatenation |
| Circuits.StepTwice | scripts/plot_p_dependence.py:40 | a self-inverse gate applied twice to a reduced list cancels |
| Circuits.CancelMirror | scripts/plot_p_dependence.py:40 | a list of self-inverse gates followed by its reversal cancels to nothing |
| Seqs.Reverse | scripts/plot_p_dependence.py:124 | `s[::-1]` keeps the length, and element `k` is element `len-1-k` of the input |
| FiveQubitCode.LogicalStateOf | scripts/plot_p_dependence.py:17-24 | the flag pairs (0,0), (0,1), (1,0), (1,1) select the states 0, 1, + and -; any other pair selects none |
| FiveQubitCode.PreparationError | scripts/plot_p_dependence.py:17-31 | preparation raises unless `(x1, x2) == (0, 0)`; the three other listed flag pairs reach the undefined name `qc` (NameError), and any other pair leaves `alpha` unbound |
| FiveQubitCode.Encoder | scripts/plot_p_dependence.py:33-38 | the encoder chain H(0), CX(0,2), CX(2,1), CX(1,3), CX(3,4), CZ(0,4) |
| FiveQubitCode.Decoder | scripts/plot_p_dependence.py:40 | the decoder captured by `inverse()` and composed at line 138: the encoder gates in reverse order |
| FiveQubitCode.DecoderGates | scripts/plot_p_dependence.py:33-40 | the decoder is exactly CZ(0,4), CX(3,4), CX(1,3), CX(2,1), CX(0,2), H(0), and it acts on data qubits only |
| FiveQubitCode.DecoderIsInverse | scripts/plot_p_dependence.py:33-40 | the decoder is the inverse of the encoder, and the encoder is the inverse of the decoder |
| FiveQubitCode.DecoderCancels | scripts/plot_p_dependence.py:33-40 | the encoder followed by the decoder cancels gate by gate to the empty circuit |
| FiveQubitCode.ErrorFor | scripts/plot_p_dependence.py:48-53 | the branch chain on one sample: X, else Y, else Z, else no error |
| FiveQubitCode.ErrorGates | scripts/plot_p_dependence.py:46-53 | the error loop over the data qubits, one optional Pauli per qubit in qubit order |
| FiveQubitCode.ErrorForSpec | scripts/plot_p_dependence.py:47-53 | a sample `r` gives X iff r < p/3, Y iff p/3 <= r < 2p/3, Z iff 2p/3 <= r < p, and no gate iff r >= p |
| FiveQubitCode.ErrorGate | scripts/plot_p_dependence.py:48-53 | one qubit contributes at most one gate, which is the Pauli chosen for it |
| FiveQubitCode.ErrorGatesShape | scripts/plot_p_dependence.py:46-53 | the error step appends at most 5 gates, each a Pauli on a data qubit |
| FiveQubitCode.ErrorGatesCount | scripts/plot_p_dependence.py:46-53 | data qubit `j` receives exactly one Pauli if its sample selects one, and none otherwise |
| FiveQubitCode.ErrorGatesContain | scripts/plot_p_dependence.py:46-53 | the Pauli selected for qubit `j` does occur in the error step |
| FiveQubitCode.PauliCountAppend | scripts/plot_p_dependence.py:46-53 | the number of Paulis on a qubit adds up over concatenation |
| FiveQubitCode.PauliCountZero | scripts/plot_p_dependence.py:46-53 | gates on qubits below `n` put no Pauli on qubit `n` or higher |
| FiveQubitCode.ZeroRateNoErrors | scripts/plot_p_dependence.py:46-53 | with p = 0 and non-negative samples the error step appends nothing |
| FiveQubitCode.Stabilizers | scripts/plot_p_dependence.py:63-66 | the list `P` of the four stabilizer strings, one character per data qubit |
| FiveQubitCode.ParityGate | scripts/plot_p_dependence.py:71-74 | the two separate tests on one character: CX(q_j, a_i) for an X, CZ(q_j, a_i) for a Z, nothing otherwise |
| FiveQubitCode.ParityGates | scripts/plot_p_dependence.py:70-74 | the inner loop: CX(q_j, a_i) for an X and CZ(q_j, a_i) for a Z at position j, nothing for I |
| FiveQubitCode.StabilizerBlock | scripts/plot_p_dependence.py:68-75 | one stabilizer: H on its ancilla, its parity gates, H on its ancilla |
| FiveQubitCode.StabilizerGates | scripts/plot_p_dependence.py:68-75 | the outer loop: the blocks of the stabilizer strings in order |
| FiveQubitCode.ParityGatesLength | scripts/plot_p_dependence.py:70-74 | the inner loop emits one gate per 'X' and one per 'Z' of the stabilizer string |
| FiveQubitCode.ParityGatesShape | scripts/plot_p_dependence.py:70-74 | each emitted gate is CX(q_j, a_i) for an 'X' at position j or CZ(q_j, a_i) for a 'Z', and the gates follow increasing j |
| FiveQubitCode.ParityGatesCover | scripts/plot_p_dependence.py:70-74 | every 'X' and every 'Z' of the string has its gate |
| FiveQubitCode.StabilizersShape | scripts/plot_p_dependence.py:63-66 | the script's four stabilizer strings each have four non-identity letters and exactly one 'I' |
| FiveQubitCode.StabilizerLayout | scripts/plot_p_dependence.py:68-75 | when each string gives 4 parity gates, stabilizer `i` occupies positions 6i..6i+5, as its own H / parity / H block |
| FiveQubitCode.StabilizerBlocks | scripts/plot_p_dependence.py:68-75 | for generator-shaped strings, block `i` is H(a_i), then the parity gates of P[i], then H(a_i); 6 gates per stabilizer |
| FiveQubitCode.StabilizerStage | scripts/plot_p_dependence.py:63-75 | the script's stabilizer loop emits 24 gates |
| FiveQubitCode.StabilizerGatesKinds | scripts/plot_p_dependence.py:68-75 | the stabilizer loop emits only H, CX and CZ |
| FiveQubitCode.StabilizerGatesSelect | scripts/plot_p_dependence.py:68-75 | the stabilizer loop emits no Pauli and no measurement |
| FiveQubitCode.SyndromeMeasurements | scripts/plot_p_dependence.py:81-84 | ancilla i measured into syndrome bit i, for i = 0..3 |
| FiveQubitCode.CorrectionLiteral | scripts/plot_p_dependence.py:91-119 | the 16 entries of the dict literal as written, the repeated key included |
| FiveQubitCode.LiteralKeyCodes | scripts/plot_p_dependence.py:91-119 | the first 15 keys of the literal are four-digit binary strings with the listed integer codes |
| FiveQubitCode.LiteralKeyListOf | scripts/plot_p_dependence.py:91-119 | the literal's keys are the listed ones, and every non-identity entry names a data qubit |
| FiveQubitCode.CorrectionValuesDistinct | scripts/plot_p_dependence.py:91-119 | the codes of the first 15 keys are pairwise distinct |
| FiveQubitCode.LiteralKeyValues | scripts/plot_p_dependence.py:91-124 | `int(key[::-1], 2)` of each of the first 15 keys is its listed code |
| FiveQubitCode.LiteralKeys | scripts/plot_p_dependence.py:91-119 | the first 15 entries are well formed, have those codes, and have distinct keys |
| FiveQubitCode.LiteralLabels | scripts/plot_p_dependence.py:91-119 | every entry after the first is an X, Y or Z correction, and none after the second is X on qubit 0 |
| FiveQubitCode.Corrections | scripts/plot_p_dependence.py:91-119 | the evaluated dict is the first 15 entries with the item at '1110' replaced by ('Z', 4) |
| FiveQubitCode.ScriptTableSpec | scripts/plot_p_dependence.py:91-119 | in such a table '1110' maps to (Z, 4); the keys' codes are exactly the values 0..15 other than 4; '0010' is absent |
| FiveQubitCode.CorrectionsSpec | scripts/plot_p_dependence.py:91-119 | in the script's table '1110' gives (Z, 4) and the key '0010' is missing |
| FiveQubitCode.ValueIndexSpec | scripts/plot_p_dependence.py:91-119 | each syndrome other than 4 has the position of its key in the table, and no key has code 4 |
| FiveQubitCode.CorrectionBody | scripts/plot_p_dependence.py:126-131 | the `if`/`elif` chain inside `if_test`: X, Y or Z on the listed qubit |
| FiveQubitCode.EntryBlock | scripts/plot_p_dependence.py:122-131 | one dict item: nothing for I, else an `if_test` on `s` with the converted key around the listed Pauli |
| FiveQubitCode.CorrectionBlocks | scripts/plot_p_dependence.py:121-131 | the correction loop: the blocks of the dict items in order |
| FiveQubitCode.EntryBlockSpec | scripts/plot_p_dependence.py:124-131 | a non-identity entry becomes one `if_test` on register `s`, with the key's converted value, around the single listed Pauli on the listed qubit |
| FiveQubitCode.CorrectionBlocksSkipFirst | scripts/plot_p_dependence.py:121-131 | with only the first entry being 'I', the loop emits one block per later entry, in table order |
| FiveQubitCode.CorrectionStage | scripts/plot_p_dependence.py:121-131 | a table of the script's shape gives 14 blocks, each a single Pauli on a data qubit, never X on qubit 0, with pairwise distinct syndrome values; the first is `if s == 7: Z(q4)` |
| FiveQubitCode.CorrectionsStage | scripts/plot_p_dependence.py:121-131 | the script's table gives 14 blocks starting with `if s == 7: Z(q4)` |
| FiveQubitCode.CorrectionBlocksKinds | scripts/plot_p_dependence.py:121-131 | the correction loop emits only conditional blocks |
| FiveQubitCode.CorrectionBlocksSelect | scripts/plot_p_dependence.py:121-131 | the correction loop emits no bare Pauli and no measurement |
| FiveQubitCode.StagesMeasureFree | scripts/plot_p_dependence.py:46-131 | the error, stabilizer and correction stages contain no measurement |
| FiveQubitCode.ErrorGatesKinds | scripts/plot_p_dependence.py:46-53 | the error step consists only of Paulis and has no measurement |
| FiveQubitCode.StagesPauli | scripts/plot_p_dependence.py:46-131 | of these stages only the error step has bare Paulis |
| FiveQubitCode.FixedStagesMeasureFree | scripts/plot_p_dependence.py:33-141 | of the fixed stages only the syndrome and final measurements measure |
| FiveQubitCode.FixedStagesPauliFree | scripts/plot_p_dependence.py:33-141 | the fixed stages contain no bare Pauli |
| FiveQubitCode.Select | scripts/plot_p_dependence.py:8-143 | filtering a circuit keeps only instructions of the wanted kind and never lengthens it |
| FiveQubitCode.SelectAppend | scripts/plot_p_dependence.py:8-143 | filtering distributes over concatenation |
| FiveQubitCode.SelectNone | scripts/plot_p_dependence.py:8-143 | filtering out every instruction gives nothing |
| FiveQubitCode.SelectAll | scripts/plot_p_dependence.py:8-143 | filtering that keeps every instruction gives the list back |
| FiveQubitCode.SelectCircuit | scripts/plot_p_dependence.py:8-143 | filtering the circuit is filtering each stage, in the order the builder emits them |
| FiveQubitCode.CircuitMeasurements | scripts/plot_p_dependence.py:81-84 | the only measurements are a_i into s_i, for i = 0..3 in order, then q0 into m0 at the end (line 141) |
| FiveQubitCode.CircuitPaulis | scripts/plot_p_dependence.py:46-53 | outside the conditional blocks, the only Paulis in the circuit are the error step's |
| FiveQubitCode.ZeroRateCircuit | scripts/plot_p_dependence.py:46-53 | with p = 0 the circuit contains no bare Pauli |
| FiveQubitCode.CircuitEnds | scripts/plot_p_dependence.py:138-141 | the circuit begins with the encoder, and ends with the encoder's inverse and then the logical measurement |
| FiveQubitCode.CircuitOf | scripts/plot_p_dependence.py:8-143 | the whole instruction list, stage after stage, for given stabilizers and table |
| FiveQubitCode.ScriptCircuit | scripts/plot_p_dependence.py:8-143 | that list for the script's stabilizer strings and its evaluated dict |
| FiveQubitCode.CircuitLength | scripts/plot_p_dependence.py:8-143 | with the script's constants the circuit has 59 instructions plus one per error gate, so at most 64 |
| FiveQubitCode.ScriptConstantsHold | scripts/plot_p_dependence.py:63-119 | the script's stabilizer strings and evaluated table satisfy the shape the builder lemmas need |
| Binary.DigitsValue | scripts/plot_p_dependence.py:124 | the value of a binary numeral read most significant digit first |
| Binary.ParseBinary | scripts/plot_p_dependence.py:163 | `int(s, 2)` succeeds exactly on non-empty strings of binary digits |
| Binary.Pow2 | scripts/plot_p_dependence.py:124 | powers of two are positive |
| Binary.Bit | scripts/plot_p_dependence.py:124 | every bit of a number is 0 or 1 |
| Binary.DigitsValueBound | scripts/plot_p_dependence.py:124 | an n-digit numeral denotes a value below 2^n |
| Binary.DigitsValueBit | scripts/plot_p_dependence.py:124 | bit k of a numeral's value is its k-th digit from the right |
| Binary.BitsDetermine | scripts/plot_p_dependence.py:124 | two numbers below 2^n that agree on their n low bits are equal |
| Binary.DigitsValueZero | scripts/plot_p_dependence.py:163 | a numeral is 0 exactly when all its digits are '0' |
| Binary.ParsesToZero | scripts/plot_p_dependence.py:163-167 | `int(s, 2) == 0` exactly when `s` is a non-empty run of '0' |
| Binary.ParsesToOne | scripts/plot_p_dependence.py:163-170 | `int(s, 2) == 1` exactly when `s` is '0's followed by a single final '1' |
| Binary.SyndromeValue | scripts/plot_p_dependence.py:124 | the key conversion `int(s_type[::-1], 2)` |
| Binary.SyndromeValueDefined | scripts/plot_p_dependence.py:124 | `int(key[::-1], 2)` succeeds exactly when the key is a non-empty binary string |
| Binary.SyndromeValueBits | scripts/plot_p_dependence.py:124 | the converted key lies below 2^len(key) (0..15 for four characters), and its bit k is character k of the key |
| Binary.ReversedDigitBit | scripts/plot_p_dependence.py:124 | reading a key back to front puts its character k at bit k |
| Binary.SyndromeValueInjective | scripts/plot_p_dependence.py:124 | distinct keys of one length convert to distinct integers |
| Binary.SyndromeValueOfFour | scripts/plot_p_dependence.py:124 | a four-character key converts to key[0] + 2 key[1] + 4 key[2] + 8 key[3] |
| Binary.SyndromeKey | scripts/plot_p_dependence.py:124 | the key built from a value has bit k of the value as its character k |
| Binary.SyndromeKeyRoundTrip | scripts/plot_p_dependence.py:124 | converting the key built from any value below 2^n gives that value back |
| Binary.RemoveSpaces | scripts/plot_p_dependence.py:163 | `replace(" ", "")` leaves no space, keeps the count of every other character, and changes nothing in a spaceless string |
| Binary.RemoveSpacesAppend | scripts/plot_p_dependence.py:163 | removing spaces keeps the order of the other characters |
| PyDict.Get | scripts/plot_p_dependence.py:91-119 | the value `d[k]` of a key in the evaluated dict, None where Python raises KeyError |
| PyDict.Put | scripts/plot_p_dependence.py:91-119 | `d[k] = v`: an existing key keeps its place and takes the new value, a new key goes to the end |
| PyDict.FromLiteral | scripts/plot_p_dependence.py:91-119 | evaluation of a dict literal, storing the entries left to right |
| PyDict.IndexOf | scripts/plot_p_dependence.py:91-119 | finds the first item holding a key, or reports that the key is absent |
| PyDict.PutSpec | scripts/plot_p_dependence.py:91-119 | storing a key keeps the keys distinct, maps the key to the new value, leaves other keys alone, keeps the existing positions, and grows the dict only for a new key |
| PyDict.UniqueIndex | scripts/plot_p_dependence.py:91-119 | with distinct keys, lookup finds the one item holding the key |
| PyDict.FromLiteralSpec | scripts/plot_p_dependence.py:91-119 | a dict literal has distinct keys, exactly the keys of its entries, and maps each key to the value of its last entry |
| PyDict.FromLiteralDistinct | scripts/plot_p_dependence.py:91-119 | a literal without repeated keys is stored as written |
| PyDict.FromLiteralRepeatLast | scripts/plot_p_dependence.py:91-119 | a final entry repeating an earlier key overwrites that item in place |
| Seqs.DistinctAppend | scripts/plot_p_dependence.py:60-61 | joining two registers with no shared bits keeps the bits distinct |
| Builder.AppendEncoder | scripts/plot_p_dependence.py:33-38 | the encoder chain is appended to the circuit |
| Builder.AppendErrors | scripts/plot_p_dependence.py:46-53 | the error loop appends exactly the error step for `p` and the samples |
| Builder.AppendParity | scripts/plot_p_dependence.py:70-74 | the inner stabilizer loop appends the CX/CZ gates of one string |
| Builder.AppendStabilizers | scripts/plot_p_dependence.py:68-75 | the stabilizer loop appends H / parity / H for each of the four strings in turn |
| Builder.AppendSyndromeMeasurements | scripts/plot_p_dependence.py:81-84 | measures ancilla i into syndrome bit i, for i = 0..3 |
| Builder.AppendEntryBlock | scripts/plot_p_dependence.py:124-131 | one non-identity entry appends its conditional Pauli on register `s` |
| Builder.AppendCorrections | scripts/plot_p_dependence.py:121-131 | the correction loop appends the blocks of every non-identity entry, in dict order |
| Builder.DecoderWellFormed | scripts/plot_p_dependence.py:138 | the saved decoder acts only on declared qubits |
| Builder.BuildFront | scripts/plot_p_dependence.py:11-56 | register, encoder, barrier, error step and barrier; the decoder saved at line 40 is the encoder's inverse |
| Builder.BuildSyndrome | scripts/plot_p_dependence.py:59-86 | ancillas, stabilizer stage, syndrome register, measurements, barrier |
| Builder.BuildBack | scripts/plot_p_dependence.py:121-141 | correction stage, barrier, decoder, logical register and final measurement |
| Builder.Build | scripts/plot_p_dependence.py:8-143 | for any stabilizer strings and table of the right shape, the built circuit is the stage-by-stage circuit over registers q, a, s, m |
| Builder.BuildScript | scripts/plot_p_dependence.py:8-143 | with the script's own strings and its evaluated table, the circuit is the script circuit |
| Builder.FiveQubitsWithRandomPauli | scripts/plot_p_dependence.py:8-143 | the builder raises exactly the preparation error for flags other than (0, 0); otherwise it returns a fresh valid circuit equal to the script circuit |
| Scoring.Attempts | scripts/plot_p_dependence.py:157 | the 100 attempts of `range(100)` at each grid point |
| Scoring.MaxIndex | scripts/plot_p_dependence.py:162 | the chosen position lies within the counts |
| Scoring.MaxIndexIsFirstMax | scripts/plot_p_dependence.py:162 | `max(counts, key=counts.get)` picks an item with the largest count that no earlier item ties; it is the only such item |
| Scoring.MostFrequent | scripts/plot_p_dependence.py:162 | raises ValueError exactly on empty counts; otherwise the result is the first most frequent outcome string |
| Scoring.ParseOutcome | scripts/plot_p_dependence.py:163 | `int(bit_str.replace(" ", ""), 2)`, with ValueError where the parse fails |
| Scoring.ExpectedBit | scripts/plot_p_dependence.py:166-171 | the expected bit: 0 for (0,0) and (1,0), 1 otherwise |
| Scoring.AttemptResult | scripts/plot_p_dependence.py:158-171 | one attempt: the preparation error, then the most frequent outcome, its parse, and the comparison with the expected bit |
| Scoring.AttemptOk | scripts/plot_p_dependence.py:158-163 | an attempt completes exactly when the flags are (0, 0), the counts are non-empty and the spaceless best string is binary; otherwise it raises the preparation error or ValueError |
| Scoring.AttemptSucceeds | scripts/plot_p_dependence.py:162-168 | for (0, 0), success means the parsed integer is the expected bit 0, that is, the spaceless best string is all '0' |
| Scoring.ExpectedOne | scripts/plot_p_dependence.py:163-171 | for the flags other than (0, 0) and (1, 0), the parse equals the expected bit 1 exactly for '0's followed by one '1' |
| Scoring.RunAttempt | scripts/plot_p_dependence.py:158-171 | one attempt builds the circuit and scores its counts, with the result given by the attempt specification |
| Scoring.Score | scripts/plot_p_dependence.py:156-171 | after n attempts the counter is at most n |
| Scoring.ScoreCountsSuccesses | scripts/plot_p_dependence.py:156-171 | the counter completes exactly when no attempt raises, and then equals the number of successful attempts |
| Scoring.ScoreError | scripts/plot_p_dependence.py:156-171 | a raised error is that of the first failing attempt |
| Scoring.ScoreErrorStays | scripts/plot_p_dependence.py:157-171 | once an attempt raises, later attempts do not change the outcome |
| Scoring.AttemptFails | scripts/plot_p_dependence.py:157-171 | an attempt that raises ends the point with that error |
| Scoring.RunPoint | scripts/plot_p_dependence.py:156-171 | the counter loop over 100 attempts computes the score specification |
| Scoring.SweepResult | scripts/plot_p_dependence.py:155-175 | a completed sweep has one probability per grid point |
| Scoring.SweepProbabilities | scripts/plot_p_dependence.py:155-175 | the sweep completes exactly when every point does; entry i is the number of successes at point i divided by 100, which lies in [0, 1] |
| Scoring.SweepErrorStays | scripts/plot_p_dependence.py:155-175 | once a grid point raises, later points do not change the outcome |
| Scoring.PointFails | scripts/plot_p_dependence.py:155-175 | a point that raises ends the sweep with that error |
| Scoring.Sweep | scripts/plot_p_dependence.py:155-175 | the nested loops over the grid and the attempts compute the sweep specification |
| Scoring.ScriptSweep | scripts/plot_p_dependence.py:147-175 | the sweep with the flags (0, 0) on the supplied counts completes exactly when every grid point does, and its entry i is the number of successful attempts at point i divided by 100, in [0, 1] |

## Left out

- Simulator execution (`transpile`, `AerSimulator.run`, `get_counts`, lines 159-161) is a foreign call. Each attempt's counts are the supplied function `run`, a list of (outcome string, count) items in dict order.
- Amplitudes, measurement collapse and sampling are physics the script never computes, so they are absent. The model states which gates are emitted, not what they do to a state.
- The floating-point preparation arithmetic (`sqrt`, `arccos`, `angle` and the 1e-12 threshold, lines 17-31) is abstracted. Each flag pair gets the logical state it names, and the model records only which pairs raise. The (0, 0) pair needs no rotation. The pairs (0, 1), (1, 0) and (1, 1) reach the undefined name `qc` and raise NameError. Every other pair leaves `alpha` unbound and raises UnboundLocalError.
- `np.random.rand()` (line 47) becomes the supplied samples `draw(i, attempt)`.
- `np.linspace(0.0, 1.0, 50)` (line 155) becomes the supplied grid.
- Scoring.Sweep: the grid values reach only the builder call, whose circuit does not affect the supplied counts. The probabilities therefore depend on the grid only through its length.
- The thresholds `p/3`, `2*p/3` and `p` (lines 48-52) and the fraction `successes / 100` (line 173) are computed in exact real arithmetic, where the script uses IEEE doubles. No stated property depends on rounding.
- Printing and plotting (lines 174, 177-192) are output only.
- Binary.ParseBinary: models `int(s, 2)` only for plain digit strings. Python also accepts a sign, underscores, surrounding whitespace and a `0b` prefix. None of these occur in outcome strings without spaces.
- The order of registers inside the counts strings is qiskit's convention and is not modelled. Success is stated on the whole spaceless string, as the code tests it.
- The physical correctness of the correction table is not a property the code claims, so it is not stated. The table is not derived from the stabilizers. Syndrome 4 (key '0010') has no entry.
- Circuits.Circuit.Compose: maps the decoder onto the register `q` by appending its instructions. The decoder was captured while `q` was the only register, so it acts on the same qubits.
