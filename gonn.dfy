/** The three-layer network of GoNN.go and its train/test driver. The driver reads records
    through an MnistDataSet; the network keeps its activation vectors and weight matrices in
    arrays that every record overwrites (vectors) or updates in place (weights). */
module GoNN {
  import opened DataSetPort

  datatype NNConfig = NNConfig(inputNodes: nat, hiddenNodes: nat, outputNodes: nat,
                               epochs: int, learningRate: real)

  // ---------------------------------------------------------------------------------------
  // Reference definitions of the arithmetic

  /** The running sum `sum += a[i] * b[i]`, left to right. */
  function Dot(a: seq<real>, b: seq<real>): real
    requires |a| == |b|
    decreases |a|
  {
    if a == [] then 0.0 else Dot(a[..|a| - 1], b[..|b| - 1]) + a[|a| - 1] * b[|b| - 1]
  }

  lemma DotStep(a: seq<real>, b: seq<real>, i: nat)
    requires i < |a| == |b|
    ensures Dot(a[..i + 1], b[..i + 1]) == Dot(a[..i], b[..i]) + a[i] * b[i]
  {
    assert a[..i + 1][..i] == a[..i];
    assert b[..i + 1][..i] == b[..i];
  }

  /** Row r of a matrix: the incoming weights of node r of the next layer. */
  ghost function Row(m: array2<real>, r: nat): (s: seq<real>)
    requires r < m.Length0
    reads m
    ensures |s| == m.Length1
  {
    seq(m.Length1, j requires 0 <= j < m.Length1 reads m => m[r, j])
  }

  /** Column c of a matrix: the outgoing weights of node c of the previous layer. */
  ghost function Column(m: array2<real>, c: nat): (s: seq<real>)
    requires c < m.Length1
    reads m
    ensures |s| == m.Length0
  {
    seq(m.Length0, i requires 0 <= i < m.Length0 reads m => m[i, c])
  }

  /** The rows of m, and its columns. */
  ghost function Rows(m: array2<real>): (s: seq<seq<real>>)
    reads m
    ensures |s| == m.Length0
  {
    seq(m.Length0, r requires 0 <= r < m.Length0 reads m => Row(m, r))
  }

  ghost function Columns(m: array2<real>): (s: seq<seq<real>>)
    reads m
    ensures |s| == m.Length1
  {
    seq(m.Length1, c requires 0 <= c < m.Length1 reads m => Column(m, c))
  }

  /** The weighted sums of x along every one of the weight vectors ws: the net inputs of the
      next layer (ws the rows of a matrix) or the errors propagated one layer back (ws the
      columns). */
  function Sums(ws: seq<seq<real>>, x: seq<real>): (s: seq<real>)
    requires forall r :: 0 <= r < |ws| ==> |ws[r]| == |x|
    ensures |s| == |ws|
  {
    seq(|ws|, r requires 0 <= r < |ws| => Dot(ws[r], x))
  }

  /** Every weight ws[r][c] moved by Delta(learningRate, errors[r], acts[r], xs[c]): the
      online update of a weight matrix given by its rows. */
  function Adjusted(ws: seq<seq<real>>, learningRate: real, errors: seq<real>, acts: seq<real>, xs: seq<real>): (r: seq<seq<real>>)
    requires |errors| == |ws| && |acts| == |ws| && forall k :: 0 <= k < |ws| ==> |ws[k]| == |xs|
    ensures |r| == |ws| && forall k :: 0 <= k < |ws| ==> |r[k]| == |xs|
  {
    seq(|ws|, r requires 0 <= r < |ws| =>
      seq(|xs|, c requires 0 <= c < |xs| => ws[r][c] + Delta(learningRate, errors[r], acts[r], xs[c])))
  }

  /** sig applied to every entry. */
  function Activations(sig: real -> real, v: seq<real>): (s: seq<real>)
    ensures |s| == |v|
  {
    seq(|v|, k requires 0 <= k < |v| => sig(v[k]))
  }

  /** The entrywise differences target minus output. */
  function Differences(target: seq<real>, output: seq<real>): (s: seq<real>)
    requires |target| == |output|
    ensures |s| == |target|
  {
    seq(|target|, k requires 0 <= k < |target| => target[k] - output[k])
  }

  /** The change of one weight in an online step: learning rate times the error of the node
      the weight leads to, times the sigmoid derivative act * (1 - act) at that node's
      activation, times the value x the weight carries. */
  function Delta(learningRate: real, error: real, act: real, x: real): real {
    learningRate * error * act * (1.0 - act) * x
  }

  /** The hit rate of a test run. */
  function Accuracy(score: nat, failure: nat): (r: real)
    ensures 0.0 <= r <= 1.0
    ensures score > 0 ==> r * ((score + failure) as real) == score as real
    ensures score == 0 ==> r == 0.0
    ensures score > 0 && failure == 0 ==> r == 1.0
  {
    if score > 0 then (score as real) / ((score + failure) as real) else 0.0
  }

  // ---------------------------------------------------------------------------------------
  // The network as a function of its weights

  /** The two weight matrices by rows: ih is input-hidden [hidden][input], ho hidden-output
      [output][hidden]. */
  datatype Weights = Weights(ih: seq<seq<real>>, ho: seq<seq<real>>)

  /** Every row of ih has one weight per input, and every row of ho one per hidden node. */
  ghost predicate Shaped(w: Weights, inputs: nat) {
    (forall h :: 0 <= h < |w.ih| ==> |w.ih[h]| == inputs)
    && (forall o :: 0 <= o < |w.ho| ==> |w.ho[o]| == |w.ih|)
  }

  /** The columns of a matrix given by its rows, n of them. */
  function Transpose(ws: seq<seq<real>>, n: nat): (t: seq<seq<real>>)
    requires forall r :: 0 <= r < |ws| ==> |ws[r]| == n
    ensures |t| == n && forall c :: 0 <= c < n ==> |t[c]| == |ws|
    ensures forall c, r :: 0 <= c < n && 0 <= r < |ws| ==> t[c][r] == ws[r][c]
  {
    seq(n, c requires 0 <= c < n => seq(|ws|, r requires 0 <= r < |ws| => ws[r][c]))
  }

  /** The output activations of the network with weights w on the input nodes x. */
  function Predict(w: Weights, sig: real -> real, x: seq<real>): (out: seq<real>)
    requires Shaped(w, |x|)
    ensures |out| == |w.ho|
  {
    Activations(sig, Sums(w.ho, Activations(sig, Sums(w.ih, x))))
  }

  /** The weights after one training record with label digit and input nodes x: the
      forward pass, the output errors against the target vector, the hidden errors through
      the hidden-output weights before the update, and then both updates. */
  function Trained(w: Weights, sig: real -> real, learningRate: real, digit: int, x: seq<real>): (w': Weights)
    requires Shaped(w, |x|)
    ensures Shaped(w', |x|) && |w'.ih| == |w.ih| && |w'.ho| == |w.ho|
  {
    var hiddenOut := Activations(sig, Sums(w.ih, x));
    var out := Activations(sig, Sums(w.ho, hiddenOut));
    var outputErrors := Differences(Targets(|w.ho|, digit), out);
    var hiddenErrors := Sums(Transpose(w.ho, |w.ih|), outputErrors);
    Weights(Adjusted(w.ih, learningRate, hiddenErrors, hiddenOut, x),
            Adjusted(w.ho, learningRate, outputErrors, out, hiddenOut))
  }

  /** The input nodes for a record line: its scaled features, then the input nodes past the
      features, which no record writes. */
  function InputOf(line: Line, outputData: nat, inputData: nat, tail: seq<real>): (x: seq<real>)
    ensures |x| == inputData + |tail|
  {
    Scaled(FeaturesOf(line, outputData, inputData)) + tail
  }

  /** The weights after training on the lines in order. */
  function TrainedOn(w: Weights, lines: seq<Line>, outputData: nat, inputData: nat, tail: seq<real>,
                     sig: real -> real, learningRate: real): (w': Weights)
    requires Shaped(w, inputData + |tail|)
    ensures Shaped(w', inputData + |tail|) && |w'.ih| == |w.ih| && |w'.ho| == |w.ho|
    decreases |lines|
  {
    if lines == [] then w
    else
      var line := lines[|lines| - 1];
      Trained(TrainedOn(w, lines[..|lines| - 1], outputData, inputData, tail, sig, learningRate),
              sig, learningRate, LabelOf(line, outputData + inputData), InputOf(line, outputData, inputData, tail))
  }

  /** Training on a + b is training on a and then on b. */
  lemma {:induction false} TrainedOnAppend(w: Weights, a: seq<Line>, b: seq<Line>, outputData: nat, inputData: nat,
                                           tail: seq<real>, sig: real -> real, learningRate: real)
    requires Shaped(w, inputData + |tail|)
    ensures TrainedOn(w, a + b, outputData, inputData, tail, sig, learningRate)
         == TrainedOn(TrainedOn(w, a, outputData, inputData, tail, sig, learningRate), b, outputData, inputData, tail, sig, learningRate)
    decreases |b|
  {
    if b == [] {
      assert a + b == a;
    } else {
      var init, last := b[..|b| - 1], b[|b| - 1];
      assert (a + b)[..|a + b| - 1] == a + init && (a + b)[|a + b| - 1] == last;
      TrainedOnAppend(w, a, init, outputData, inputData, tail, sig, learningRate);
      TrainedOnLast(w, a + b, outputData, inputData, tail, sig, learningRate);
      TrainedOnLast(TrainedOn(w, a, outputData, inputData, tail, sig, learningRate), b, outputData, inputData, tail, sig, learningRate);
    }
  }

  /** Training on a non-empty sequence of lines is one Trained step on its last line after
      training on the others. */
  lemma TrainedOnLast(w: Weights, lines: seq<Line>, outputData: nat, inputData: nat, tail: seq<real>,
                      sig: real -> real, learningRate: real)
    requires Shaped(w, inputData + |tail|) && lines != []
    ensures var line := lines[|lines| - 1];
      TrainedOn(w, lines, outputData, inputData, tail, sig, learningRate)
      == Trained(TrainedOn(w, lines[..|lines| - 1], outputData, inputData, tail, sig, learningRate), sig, learningRate,
                 LabelOf(line, outputData + inputData), InputOf(line, outputData, inputData, tail))
  {
  }

  /** The weights after training on the first n lines, counted rather than sliced. */
  function TrainedUpTo(w: Weights, lines: seq<Line>, n: nat, outputData: nat, inputData: nat, tail: seq<real>,
                       sig: real -> real, learningRate: real): (w': Weights)
    requires Shaped(w, inputData + |tail|) && n <= |lines|
    ensures Shaped(w', inputData + |tail|) && |w'.ih| == |w.ih| && |w'.ho| == |w.ho|
  {
    if n == 0 then w
    else
      Trained(TrainedUpTo(w, lines, n - 1, outputData, inputData, tail, sig, learningRate),
              sig, learningRate, LabelOf(lines[n - 1], outputData + inputData), InputOf(lines[n - 1], outputData, inputData, tail))
  }

  /** Counting one line further is one more Trained step. */
  lemma TrainedUpToNext(w: Weights, lines: seq<Line>, n: nat, outputData: nat, inputData: nat, tail: seq<real>,
                        sig: real -> real, learningRate: real)
    requires Shaped(w, inputData + |tail|) && n < |lines|
    ensures TrainedUpTo(w, lines, n + 1, outputData, inputData, tail, sig, learningRate)
         == Trained(TrainedUpTo(w, lines, n, outputData, inputData, tail, sig, learningRate), sig, learningRate,
                    LabelOf(lines[n], outputData + inputData), InputOf(lines[n], outputData, inputData, tail))
  {
  }

  lemma {:induction false} TrainedUpToPrefix(w: Weights, lines: seq<Line>, n: nat, outputData: nat, inputData: nat,
                                             tail: seq<real>, sig: real -> real, learningRate: real)
    requires Shaped(w, inputData + |tail|) && n <= |lines|
    ensures TrainedUpTo(w, lines, n, outputData, inputData, tail, sig, learningRate)
         == TrainedOn(w, lines[..n], outputData, inputData, tail, sig, learningRate)
  {
    if n > 0 {
      TrainedUpToPrefix(w, lines, n - 1, outputData, inputData, tail, sig, learningRate);
      assert lines[..n][..n - 1] == lines[..n - 1] && lines[..n][n - 1] == lines[n - 1];
      TrainedUpToNext(w, lines, n - 1, outputData, inputData, tail, sig, learningRate);
      TrainedOnLast(w, lines[..n], outputData, inputData, tail, sig, learningRate);
    }
  }

  /** The lines of n passes over a file. */
  function Repeat(lines: seq<Line>, n: nat): (r: seq<Line>)
    ensures |r| == n * |lines|
  {
    if n == 0 then [] else Repeat(lines, n - 1) + lines
  }

  /** A test record decodes to its label under the weights w. */
  ghost predicate Hit(w: Weights, line: Line, outputData: nat, inputData: nat, tail: seq<real>, sig: real -> real) {
    Shaped(w, inputData + |tail|)
    && LabelOf(line, outputData + inputData) == Argmax(Predict(w, sig, InputOf(line, outputData, inputData, tail)))
  }

  /** The number of lines that decode to their label. */
  ghost function Hits(w: Weights, lines: seq<Line>, outputData: nat, inputData: nat, tail: seq<real>, sig: real -> real): (n: nat)
    ensures n <= |lines|
    decreases |lines|
  {
    if lines == [] then 0
    else Hits(w, lines[..|lines| - 1], outputData, inputData, tail, sig)
         + (if Hit(w, lines[|lines| - 1], outputData, inputData, tail, sig) then 1 else 0)
  }

  /** Counting over a non-empty sequence of lines adds its last line when it is a hit. */
  lemma HitsLast(w: Weights, lines: seq<Line>, outputData: nat, inputData: nat, tail: seq<real>, sig: real -> real)
    requires lines != []
    ensures Hits(w, lines, outputData, inputData, tail, sig)
         == Hits(w, lines[..|lines| - 1], outputData, inputData, tail, sig)
            + (if Hit(w, lines[|lines| - 1], outputData, inputData, tail, sig) then 1 else 0)
  {
  }

  /** Every line is a hit exactly when the count of hits is the number of lines. */
  lemma {:induction false} HitsAll(w: Weights, lines: seq<Line>, outputData: nat, inputData: nat, tail: seq<real>, sig: real -> real)
    ensures Hits(w, lines, outputData, inputData, tail, sig) == |lines|
        <==> forall j :: 0 <= j < |lines| ==> Hit(w, lines[j], outputData, inputData, tail, sig)
    decreases |lines|
  {
    if lines != [] {
      var init, last := lines[..|lines| - 1], lines[|lines| - 1];
      HitsAll(w, init, outputData, inputData, tail, sig);
      HitsLast(w, lines, outputData, inputData, tail, sig);
      if forall j :: 0 <= j < |lines| ==> Hit(w, lines[j], outputData, inputData, tail, sig) {
        forall j | 0 <= j < |init| ensures Hit(w, init[j], outputData, inputData, tail, sig) {
          assert init[j] == lines[j];
        }
        assert Hit(w, last, outputData, inputData, tail, sig);
      }
      if Hits(w, lines, outputData, inputData, tail, sig) == |lines| {
        forall j | 0 <= j < |lines| ensures Hit(w, lines[j], outputData, inputData, tail, sig) {
          if j < |init| {
            assert init[j] == lines[j];
          }
        }
      }
    }
  }

  /** The accuracy a test pass over lines reports for the weights w: hits over lines. */
  ghost function TestAccuracy(w: Weights, lines: seq<Line>, outputData: nat, inputData: nat, tail: seq<real>,
                              sig: real -> real): (r: real)
    ensures 0.0 <= r <= 1.0
  {
    var hits := Hits(w, lines, outputData, inputData, tail, sig);
    Accuracy(hits, |lines| - hits)
  }

  /** A test pass that scores every record of a non-empty file reports 1, and one that
      scores none reports 0. */
  lemma TestAccuracyBounds(w: Weights, lines: seq<Line>, outputData: nat, inputData: nat, tail: seq<real>,
                           sig: real -> real)
    ensures 0 < |lines| && (forall j :: 0 <= j < |lines| ==> Hit(w, lines[j], outputData, inputData, tail, sig))
            ==> TestAccuracy(w, lines, outputData, inputData, tail, sig) == 1.0
    ensures (forall j :: 0 <= j < |lines| ==> !Hit(w, lines[j], outputData, inputData, tail, sig))
            ==> TestAccuracy(w, lines, outputData, inputData, tail, sig) == 0.0
  {
    HitsAll(w, lines, outputData, inputData, tail, sig);
    if forall j :: 0 <= j < |lines| ==> !Hit(w, lines[j], outputData, inputData, tail, sig) {
      HitsNone(w, lines, outputData, inputData, tail, sig);
    }
  }

  /** Scoring no record counts no hit. */
  lemma {:induction false} HitsNone(w: Weights, lines: seq<Line>, outputData: nat, inputData: nat, tail: seq<real>,
                                    sig: real -> real)
    requires forall j :: 0 <= j < |lines| ==> !Hit(w, lines[j], outputData, inputData, tail, sig)
    ensures Hits(w, lines, outputData, inputData, tail, sig) == 0
    decreases |lines|
  {
    if lines != [] {
      var init := lines[..|lines| - 1];
      assert forall j :: 0 <= j < |init| ==> init[j] == lines[j];
      HitsNone(w, init, outputData, inputData, tail, sig);
      HitsLast(w, lines, outputData, inputData, tail, sig);
    }
  }

  /** Counts that match Hits give the accuracy of the pass. */
  lemma TestAccuracyOf(w: Weights, lines: seq<Line>, outputData: nat, inputData: nat, tail: seq<real>,
                       sig: real -> real, hits: nat, misses: nat)
    requires hits == Hits(w, lines, outputData, inputData, tail, sig) && hits + misses == |lines|
    ensures TestAccuracy(w, lines, outputData, inputData, tail, sig) == Accuracy(hits, misses)
  {
  }

  /** The number of hits among the first n lines, counted rather than sliced. */
  ghost function HitsUpTo(w: Weights, lines: seq<Line>, n: nat, outputData: nat, inputData: nat, tail: seq<real>,
                          sig: real -> real): (hits: nat)
    requires n <= |lines|
    ensures hits <= n
  {
    if n == 0 then 0
    else HitsUpTo(w, lines, n - 1, outputData, inputData, tail, sig)
         + (if Hit(w, lines[n - 1], outputData, inputData, tail, sig) then 1 else 0)
  }

  lemma {:induction false} HitsUpToPrefix(w: Weights, lines: seq<Line>, n: nat, outputData: nat, inputData: nat,
                                          tail: seq<real>, sig: real -> real)
    requires n <= |lines|
    ensures HitsUpTo(w, lines, n, outputData, inputData, tail, sig) == Hits(w, lines[..n], outputData, inputData, tail, sig)
  {
    if n > 0 {
      HitsUpToPrefix(w, lines, n - 1, outputData, inputData, tail, sig);
      assert lines[..n][..n - 1] == lines[..n - 1] && lines[..n][n - 1] == lines[n - 1];
      HitsLast(w, lines[..n], outputData, inputData, tail, sig);
    }
  }

  /** Counting over all the lines is Hits. */
  lemma HitsUpToAll(w: Weights, lines: seq<Line>, n: nat, outputData: nat, inputData: nat, tail: seq<real>,
                    sig: real -> real)
    requires n == |lines|
    ensures HitsUpTo(w, lines, n, outputData, inputData, tail, sig) == Hits(w, lines, outputData, inputData, tail, sig)
  {
    HitsUpToPrefix(w, lines, n, outputData, inputData, tail, sig);
    assert lines[..n] == lines;
  }

  /** The weights InitNeuralNetwork draws: input-hidden row by row, then hidden-output row by
      row, each draw shifted by -0.5. */
  function InitialWeights(config: NNConfig, rand: nat -> real): (w: Weights)
    ensures Shaped(w, config.inputNodes) && |w.ih| == config.hiddenNodes && |w.ho| == config.outputNodes
  {
    var inputs, hiddens := config.inputNodes, config.hiddenNodes;
    Weights(Draws(hiddens, inputs, 0, rand), Draws(config.outputNodes, hiddens, hiddens * inputs, rand))
  }

  /** A rows-by-columns matrix of draws from number first on, row by row, each minus 0.5. */
  function Draws(rows: nat, columns: nat, first: nat, rand: nat -> real): (ws: seq<seq<real>>)
    ensures |ws| == rows && forall r :: 0 <= r < rows ==> |ws[r]| == columns
    ensures forall r, c :: 0 <= r < rows && 0 <= c < columns ==> ws[r][c] == rand(first + r * columns + c) - 0.5
  {
    seq(rows, (r: nat) => seq(columns, (c: nat) => rand(first + r * columns + c) - 0.5))
  }

  /** The columns of a matrix are the transpose of its rows. */
  lemma ColumnsTranspose(m: array2<real>)
    ensures forall r :: 0 <= r < m.Length0 ==> |Rows(m)[r]| == m.Length1
    ensures Columns(m) == Transpose(Rows(m), m.Length1)
  {
    forall r | 0 <= r < m.Length0 ensures |Rows(m)[r]| == m.Length1 {
      assert Rows(m)[r] == Row(m, r);
    }
    var t := Transpose(Rows(m), m.Length1);
    forall c | 0 <= c < m.Length1 ensures Columns(m)[c] == t[c] {
      assert Columns(m)[c] == Column(m, c);
      forall r | 0 <= r < m.Length0 ensures Column(m, c)[r] == t[c][r] {
        assert Rows(m)[r] == Row(m, r);
      }
    }
  }

  // ---------------------------------------------------------------------------------------
  // What the driver loops do with the lines of a file

  /** Training also places the label in the target vector, which has `classes` entries. */
  datatype Phase = Training(classes: nat) | Testing

  /** The outcome of one record in a driver loop: reading it, and in training setting up its
      target vector. */
  function DriverOutcome(line: Line, outputData: nat, inputData: nat, phase: Phase): Outcome {
    var read := ReadOutcome(line, outputData + inputData);
    if read.Fail? then read
    else match phase
      case Testing => Pass
      case Training(classes) =>
        if LabelOf(line, outputData + inputData) < classes then Pass else Fail(IndexOutOfRange)
  }

  /** The number of leading lines a driver loop gets through. */
  function Passing(lines: seq<Line>, outputData: nat, inputData: nat, phase: Phase): (k: nat)
    ensures k <= |lines|
    decreases |lines|
  {
    if lines == [] || DriverOutcome(lines[0], outputData, inputData, phase) != Pass then 0
    else 1 + Passing(lines[1..], outputData, inputData, phase)
  }

  lemma {:induction false} PassingPrefix(lines: seq<Line>, outputData: nat, inputData: nat, phase: Phase)
    ensures forall j :: 0 <= j < Passing(lines, outputData, inputData, phase) ==>
      DriverOutcome(lines[j], outputData, inputData, phase) == Pass
    ensures Passing(lines, outputData, inputData, phase) < |lines| ==>
      DriverOutcome(lines[Passing(lines, outputData, inputData, phase)], outputData, inputData, phase) != Pass
    decreases |lines|
  {
    if lines != [] && DriverOutcome(lines[0], outputData, inputData, phase) == Pass {
      PassingPrefix(lines[1..], outputData, inputData, phase);
      var k := Passing(lines, outputData, inputData, phase);
      forall j | 0 <= j < k ensures DriverOutcome(lines[j], outputData, inputData, phase) == Pass {
        if j > 0 { assert lines[j] == lines[1..][j - 1]; }
      }
    }
  }

  /** A loop gets through k lines exactly when the first k lines pass and the next one, if
      any, does not. */
  lemma PassingMeaning(lines: seq<Line>, outputData: nat, inputData: nat, phase: Phase, k: nat)
    ensures Passing(lines, outputData, inputData, phase) == k <==>
      k <= |lines|
      && (forall j :: 0 <= j < k ==> DriverOutcome(lines[j], outputData, inputData, phase) == Pass)
      && (k < |lines| ==> DriverOutcome(lines[k], outputData, inputData, phase) != Pass)
  {
    PassingPrefix(lines, outputData, inputData, phase);
  }

  /** One more passing line extends the count: the step of a driver loop. */
  lemma {:induction false} PassingGrows(lines: seq<Line>, outputData: nat, inputData: nat, phase: Phase, k: nat)
    requires k < |lines| && Passing(lines, outputData, inputData, phase) >= k
    requires DriverOutcome(lines[k], outputData, inputData, phase) == Pass
    ensures Passing(lines, outputData, inputData, phase) >= k + 1
    decreases k
  {
    if k > 0 {
      assert lines[1..][k - 1] == lines[k];
      PassingGrows(lines[1..], outputData, inputData, phase, k - 1);
    }
  }

  /** A count of at least k stops at k when line k, if any, does not pass: the exit of a
      driver loop. */
  lemma PassingStops(lines: seq<Line>, outputData: nat, inputData: nat, phase: Phase, k: nat)
    requires k <= |lines| && Passing(lines, outputData, inputData, phase) >= k
    requires k < |lines| ==> DriverOutcome(lines[k], outputData, inputData, phase) != Pass
    ensures Passing(lines, outputData, inputData, phase) == k
  {
    PassingPrefix(lines, outputData, inputData, phase);
  }

  /** The handle after k successful reads through h. */
  function Along(h: Handle, k: nat): Handle {
    match h
    case NoFile => NoFile
    case File(lines, cursor, _) => if k == 0 then h else File(lines, cursor + k, true)
  }

  /** The read after k successful ones through h: it returns the outcome of line k of the
      pending lines, or the end error of h once they are used up; on success it moves one
      line on and leaves the label and the features of that line in the buffers. */
  method ReadPending(ds: MnistDataSet, ghost h: Handle, ghost k: nat) returns (err: Outcome)
    requires ds.Valid() && 1 <= ds.outputData && HandleOk(h) && k <= |Pending(h)| && ds.dataFile == Along(h, k)
    modifies ds`dataFile, ds.inputDataVector, ds.outputDataVector
    ensures ds.Valid() && ds.dataFile == AfterFetch(old(ds.dataFile))
    ensures err == (if k < |Pending(h)| then ReadOutcome(Pending(h)[k], ds.outputData + ds.inputData)
                    else Fail(End(h)))
    ensures err == Pass ==>
      ds.dataFile == Along(h, k + 1)
      && ds.outputDataVector[0] == LabelOf(Pending(h)[k], ds.outputData + ds.inputData)
      && ds.inputDataVector[..] == FeaturesOf(Pending(h)[k], ds.outputData, ds.inputData)
  {
    err := ds.ReadNextDataSet();
  }

  /** The outcome of a read loop over lines followed by the error end: the first record that
      does not pass, else nil when the lines end at end-of-file, else the error end. */
  function StreamOutcome(lines: seq<Line>, end: Error, outputData: nat, inputData: nat, phase: Phase): Outcome {
    var k := Passing(lines, outputData, inputData, phase);
    if k < |lines| then DriverOutcome(lines[k], outputData, inputData, phase)
    else if end == EndOfFile then Pass
    else Fail(end)
  }

  /** What Train does: the open calls, the records trained on, in order, and the error
      returned. */
  datatype Run = Run(opens: nat, trained: seq<Line>, outcome: Outcome)

  function TrainRun(files: map<string, seq<Line>>, path: string, epochs: int,
                    outputData: nat, inputData: nat, classes: nat): Run
  {
    if path !in files then Run(1, [], Fail(OpenFailed(path)))
    else if epochs <= 0 then Run(1, [], Pass)
    else
      var lines := files[path];
      var outcome := StreamOutcome(lines, EndOfFile, outputData, inputData, Training(classes));
      if outcome == Pass then Run(epochs + 1, Repeat(lines, epochs), Pass)
      else Run(1, lines[..Passing(lines, outputData, inputData, Training(classes))], outcome)
  }

  /** How the epoch loop of Train can stop short: the open failed before any epoch, or the
      first epoch stopped at a record that does not pass, having trained on the records
      before it. */
  ghost predicate TrainAborted(files: map<string, seq<Line>>, path: string, e: nat, done: seq<Line>, err: Outcome,
                               outputData: nat, inputData: nat, phase: Phase)
  {
    if path !in files then e == 0 && done == [] && err == Fail(OpenFailed(path))
    else
      var lines := files[path];
      var k := Passing(lines, outputData, inputData, phase);
      e == 1 && k < |lines| && done == lines[..k] && err == DriverOutcome(lines[k], outputData, inputData, phase)
  }

  /** Where the epoch loop of Train stops is the run of TrainRun. */
  lemma TrainRunOf(files: map<string, seq<Line>>, path: string, epochs: int, e: nat, done: seq<Line>, err: Outcome,
                   outputData: nat, inputData: nat, classes: nat)
    requires e <= epochs || e == 0
    requires err == Pass ==>
      path in files && e == (if epochs > 0 then epochs else 0) && done == Repeat(files[path], e)
      && (e > 0 ==> StreamOutcome(files[path], EndOfFile, outputData, inputData, Training(classes)) == Pass)
    requires err != Pass ==> TrainAborted(files, path, e, done, err, outputData, inputData, Training(classes))
    ensures TrainRun(files, path, epochs, outputData, inputData, classes) == Run(if err == Pass then e + 1 else 1, done, err)
  {
  }

  /** A successful training run opens the file once per epoch and once more, and trains on
      every line of the file in every epoch. */
  lemma TrainRunSucceeds(files: map<string, seq<Line>>, path: string, epochs: int,
                         outputData: nat, inputData: nat, classes: nat)
    requires TrainRun(files, path, epochs, outputData, inputData, classes).outcome == Pass
    ensures path in files
    ensures var run := TrainRun(files, path, epochs, outputData, inputData, classes);
      run.opens == (if epochs > 0 then epochs else 0) + 1
      && run.trained == Repeat(files[path], if epochs > 0 then epochs else 0)
      && |run.trained| == (if epochs > 0 then epochs else 0) * |files[path]|
    ensures epochs > 0 ==> forall j :: 0 <= j < |files[path]| ==>
      DriverOutcome(files[path][j], outputData, inputData, Training(classes)) == Pass
  {
    if epochs > 0 {
      PassingPrefix(files[path], outputData, inputData, Training(classes));
    }
  }

  /** A failing training run stops at the first record that fails, in the first epoch, and
      returns that record's error, having trained on the records before it; an open failure
      is returned as it is. */
  lemma TrainRunAborts(files: map<string, seq<Line>>, path: string, epochs: int,
                       outputData: nat, inputData: nat, classes: nat)
    requires TrainRun(files, path, epochs, outputData, inputData, classes).outcome != Pass
    ensures var run := TrainRun(files, path, epochs, outputData, inputData, classes);
      var n := |run.trained|;
      run.opens == 1
      && (path !in files ==> run.outcome == Fail(OpenFailed(path)) && run.trained == [])
      && (path in files ==>
            epochs > 0 && n < |files[path]| && run.trained == files[path][..n]
            && (forall j :: 0 <= j < n ==>
                  DriverOutcome(files[path][j], outputData, inputData, Training(classes)) == Pass)
            && run.outcome == DriverOutcome(files[path][n], outputData, inputData, Training(classes)))
  {
    if path in files {
      PassingPrefix(files[path], outputData, inputData, Training(classes));
    }
  }

  /** Reading never reports end-of-file for a line that is there. */
  lemma ReadOutcomeNotEnd(line: Line, capacity: nat)
    ensures ReadOutcome(line, capacity) != Fail(EndOfFile)
  {
    if line.Record? {
      ScanErrors(line.tokens, capacity);
    }
  }

  /** Nor does a driver loop, whatever its phase. */
  lemma DriverOutcomeNotEnd(line: Line, outputData: nat, inputData: nat, phase: Phase)
    ensures DriverOutcome(line, outputData, inputData, phase) != Fail(EndOfFile)
  {
    ReadOutcomeNotEnd(line, outputData + inputData);
  }

  lemma {:induction false} ScanErrors(toks: seq<Token>, capacity: nat)
    ensures ScanTokens(toks, capacity).status != Fail(EndOfFile)
    decreases |toks|
  {
    if toks != [] {
      ScanErrors(toks[..|toks| - 1], capacity);
    }
  }

  /** The weighted sum of row r of m against the vector x. */
  method RowDot(m: array2<real>, r: nat, x: array<real>) returns (sum: real)
    requires r < m.Length0 && m.Length1 == x.Length
    ensures sum == Dot(Row(m, r), x[..])
  {
    sum := 0.0;
    for j := 0 to x.Length
      invariant sum == Dot(Row(m, r)[..j], x[..j])
    {
      DotStep(Row(m, r), x[..], j);
      sum := sum + m[r, j] * x[j];
    }
    assert Row(m, r)[..x.Length] == Row(m, r) && x[..x.Length] == x[..];
  }

  /** The weighted sum of column c of m against the vector x. */
  method ColumnDot(m: array2<real>, c: nat, x: array<real>) returns (sum: real)
    requires c < m.Length1 && m.Length0 == x.Length
    ensures sum == Dot(Column(m, c), x[..])
  {
    sum := 0.0;
    for j := 0 to x.Length
      invariant sum == Dot(Column(m, c)[..j], x[..j])
    {
      DotStep(Column(m, c), x[..], j);
      sum := sum + m[j, c] * x[j];
    }
    assert Column(m, c)[..x.Length] == Column(m, c) && x[..x.Length] == x[..];
  }

  /** One layer of the forward pass: node r of the layer takes the weighted sum of the
      previous layer's values x along row r of m, and its activation through sig. */
  method ForwardLayer(m: array2<real>, x: array<real>, sums: array<real>, activations: array<real>, sig: real -> real)
    requires m.Length1 == x.Length && m.Length0 == sums.Length == activations.Length
    requires x != sums && x != activations && sums != activations
    modifies sums, activations
    ensures sums[..] == Sums(Rows(m), x[..]) && activations[..] == Activations(sig, sums[..])
  {
    for r := 0 to sums.Length
      invariant forall r' :: 0 <= r' < r ==> sums[r'] == Dot(Row(m, r'), x[..]) && activations[r'] == sig(sums[r'])
    {
      var sum := RowDot(m, r, x);
      sums[r] := sum;
      activations[r] := sig(sum);
    }
  }

  /** A vector of n nodes, each 0 as a fresh Go slice is. */
  method ZeroVector(n: nat) returns (v: array<real>)
    ensures fresh(v) && v.Length == n && Zeros(v[..])
  {
    v := new real[n](_ => 0.0);
  }

  /** A rows-by-columns weight matrix filled row by row from the random source, starting at
      draw number first; every draw is shifted by -0.5. */
  method RandomWeights(rows: nat, columns: nat, first: nat, rand: nat -> real) returns (m: array2<real>)
    ensures fresh(m) && m.Length0 == rows && m.Length1 == columns
    ensures forall r, c :: 0 <= r < rows && 0 <= c < columns ==> m[r, c] == rand(first + r * columns + c) - 0.5
    ensures Rows(m) == Draws(rows, columns, first, rand)
  {
    m := new real[rows, columns];
    for r := 0 to rows
      invariant forall a, b :: 0 <= a < r && 0 <= b < columns ==> m[a, b] == rand(first + a * columns + b) - 0.5
    {
      for c := 0 to columns
        invariant forall a, b :: 0 <= a < r && 0 <= b < columns ==> m[a, b] == rand(first + a * columns + b) - 0.5
        invariant forall b :: 0 <= b < c ==> m[r, b] == rand(first + r * columns + b) - 0.5
      {
        m[r, c] := rand(first + r * columns + c) - 0.5;
      }
    }
    RowsAre(m, Draws(rows, columns, first, rand));
  }

  /** The online update of one weight matrix, column by column: weight m[r, c] moves by the
      error of node r times the sigmoid derivative at its activation times the value xs[c]. */
  method AdjustWeights(m: array2<real>, learningRate: real, errors: array<real>, acts: array<real>, xs: array<real>)
    requires m.Length0 == errors.Length == acts.Length && m.Length1 == xs.Length
    modifies m
    ensures Rows(m) == Adjusted(old(Rows(m)), learningRate, errors[..], acts[..], xs[..])
  {
    ghost var rows := Rows(m);
    for c := 0 to m.Length1
      invariant forall r, c' :: 0 <= r < m.Length0 && 0 <= c' < m.Length1 ==>
        m[r, c'] == rows[r][c'] + (if c' < c then Delta(learningRate, errors[r], acts[r], xs[c']) else 0.0)
    {
      for r := 0 to m.Length0
        invariant forall r', c' :: 0 <= r' < m.Length0 && 0 <= c' < m.Length1 ==>
          m[r', c'] == rows[r'][c'] + (if c' < c || (c' == c && r' < r) then Delta(learningRate, errors[r'], acts[r'], xs[c']) else 0.0)
      {
        var diff := Delta(learningRate, errors[r], acts[r], xs[c]);
        m[r, c] := m[r, c] + diff;
      }
    }
    RowsAdjusted(m, rows, learningRate, errors[..], acts[..], xs[..]);
  }

  /** The entries of the rows of m are those of m. */
  lemma RowsEntries(m: array2<real>)
    ensures forall r :: 0 <= r < m.Length0 ==> |Rows(m)[r]| == m.Length1
    ensures forall r, c :: 0 <= r < m.Length0 && 0 <= c < m.Length1 ==> Rows(m)[r][c] == m[r, c]
  {
    forall r | 0 <= r < m.Length0
      ensures |Rows(m)[r]| == m.Length1 && forall c :: 0 <= c < m.Length1 ==> Rows(m)[r][c] == m[r, c]
    {
      assert Rows(m)[r] == Row(m, r);
    }
  }

  /** A matrix whose every entry is that of ws has ws as its rows. */
  lemma RowsAre(m: array2<real>, ws: seq<seq<real>>)
    requires |ws| == m.Length0 && forall r :: 0 <= r < |ws| ==> |ws[r]| == m.Length1
    requires forall r, c :: 0 <= r < m.Length0 && 0 <= c < m.Length1 ==> m[r, c] == ws[r][c]
    ensures Rows(m) == ws
  {
    forall r | 0 <= r < m.Length0 ensures Rows(m)[r] == ws[r] {
      assert Rows(m)[r] == Row(m, r);
    }
  }

  lemma RowsAdjusted(m: array2<real>, ws: seq<seq<real>>, learningRate: real, errors: seq<real>, acts: seq<real>, xs: seq<real>)
    requires |ws| == m.Length0 == |errors| == |acts| && m.Length1 == |xs|
    requires forall r :: 0 <= r < |ws| ==> |ws[r]| == |xs|
    requires forall r, c :: 0 <= r < m.Length0 && 0 <= c < m.Length1 ==>
      m[r, c] == ws[r][c] + Delta(learningRate, errors[r], acts[r], xs[c])
    ensures Rows(m) == Adjusted(ws, learningRate, errors, acts, xs)
  {
    var a := Adjusted(ws, learningRate, errors, acts, xs);
    forall r | 0 <= r < m.Length0 ensures Rows(m)[r] == a[r] {
      assert Rows(m)[r] == Row(m, r);
    }
  }

  /** Every entry of v is zero. */
  ghost predicate Zeros(v: seq<real>) {
    forall k :: 0 <= k < |v| ==> v[k] == 0.0
  }

  /** The n zero entries of a freshly made Go slice. */
  ghost function ZeroTail(n: nat): (v: seq<real>)
    ensures |v| == n && Zeros(v)
  {
    seq(n, _ => 0.0)
  }

  /** A weighted sum of zeros is zero. */
  lemma {:induction false} DotZeros(a: seq<real>, z: seq<real>)
    requires |a| == |z| && Zeros(z)
    ensures Dot(a, z) == 0.0
    decreases |a|
  {
    if a != [] {
      DotZeros(a[..|a| - 1], z[..|z| - 1]);
    }
  }

  /** An update with zero errors moves no weight. */
  lemma AdjustedByZeroErrors(ws: seq<seq<real>>, learningRate: real, errors: seq<real>, acts: seq<real>, xs: seq<real>)
    requires |errors| == |ws| && |acts| == |ws| && forall k :: 0 <= k < |ws| ==> |ws[k]| == |xs|
    requires Zeros(errors)
    ensures Adjusted(ws, learningRate, errors, acts, xs) == ws
  {
    var a := Adjusted(ws, learningRate, errors, acts, xs);
    forall r | 0 <= r < |ws| ensures a[r] == ws[r] {
      forall c | 0 <= c < |xs| ensures a[r][c] == ws[r][c] {
        assert Delta(learningRate, errors[r], acts[r], xs[c]) == 0.0;
      }
    }
  }

  /** A record whose target the network already puts out exactly trains nothing: the output
      errors are zero, so are the errors propagated back to the hidden layer, and the update of
      either weight matrix leaves every weight where it was. */
  lemma PerfectRecordKeepsWeights(who: seq<seq<real>>, whoColumns: seq<seq<real>>, wih: seq<seq<real>>,
                                  target: seq<real>, output: seq<real>, hiddenOut: seq<real>,
                                  input: seq<real>, learningRate: real)
    requires |target| == |output| == |who| && forall o :: 0 <= o < |who| ==> |who[o]| == |hiddenOut|
    requires |whoColumns| == |hiddenOut| == |wih| && forall h :: 0 <= h < |whoColumns| ==> |whoColumns[h]| == |output|
    requires forall h :: 0 <= h < |wih| ==> |wih[h]| == |input|
    requires target == output
    ensures var outputErrors := Differences(target, output);
      var hiddenErrors := Sums(whoColumns, outputErrors);
      Zeros(outputErrors) && Zeros(hiddenErrors)
      && Adjusted(who, learningRate, outputErrors, output, hiddenOut) == who
      && Adjusted(wih, learningRate, hiddenErrors, hiddenOut, input) == wih
  {
    var outputErrors := Differences(target, output);
    var hiddenErrors := Sums(whoColumns, outputErrors);
    forall h | 0 <= h < |whoColumns| ensures hiddenErrors[h] == 0.0 {
      DotZeros(whoColumns[h], outputErrors);
    }
    AdjustedByZeroErrors(who, learningRate, outputErrors, output, hiddenOut);
    AdjustedByZeroErrors(wih, learningRate, hiddenErrors, hiddenOut, input);
  }

  // ---------------------------------------------------------------------------------------
  // The network

  class NeuralNetwork {
    const inputNodes: nat
    const hiddenNodes: nat
    const outputNodes: nat
    const epochs: int
    const learningRate: real

    const inputVector: array<real>
    const hiddenInVector: array<real>
    const hiddenOutVector: array<real>
    const hiddenErrorVector: array<real>
    const outputInVector: array<real>
    const outputOutVector: array<real>
    const outputErrorVector: array<real>
    const outputTargetVector: array<real>

    const wih: array2<real>  // [hiddenNodes, inputNodes]
    const who: array2<real>  // [outputNodes, hiddenNodes]

    /** The weights as a value, which the training methods keep equal to the entries of wih
        and who (Mirrors) and state their effect on. */
    ghost var weights: Weights

    /** The activation sig(x) = e^x / (1 + e^x). */
    const sig: real -> real

    ghost predicate Shapes()
    {
      inputVector.Length == inputNodes
      && hiddenInVector.Length == hiddenNodes && hiddenOutVector.Length == hiddenNodes
      && hiddenErrorVector.Length == hiddenNodes
      && outputInVector.Length == outputNodes && outputOutVector.Length == outputNodes
      && outputErrorVector.Length == outputNodes && outputTargetVector.Length == outputNodes
      && wih.Length0 == hiddenNodes && wih.Length1 == inputNodes
      && who.Length0 == outputNodes && who.Length1 == hiddenNodes
    }

    ghost predicate Separate()
    {
      wih != who
      && inputVector != hiddenInVector && inputVector != hiddenOutVector && inputVector != hiddenErrorVector
      && inputVector != outputInVector && inputVector != outputOutVector && inputVector != outputErrorVector
      && inputVector != outputTargetVector
      && hiddenInVector != hiddenOutVector && hiddenInVector != hiddenErrorVector
      && hiddenInVector != outputInVector && hiddenInVector != outputOutVector
      && hiddenInVector != outputErrorVector && hiddenInVector != outputTargetVector
      && hiddenOutVector != hiddenErrorVector && hiddenOutVector != outputInVector
      && hiddenOutVector != outputOutVector && hiddenOutVector != outputErrorVector
      && hiddenOutVector != outputTargetVector
      && hiddenErrorVector != outputInVector && hiddenErrorVector != outputOutVector
      && hiddenErrorVector != outputErrorVector && hiddenErrorVector != outputTargetVector
      && outputInVector != outputOutVector && outputInVector != outputErrorVector
      && outputInVector != outputTargetVector
      && outputOutVector != outputErrorVector && outputOutVector != outputTargetVector
      && outputErrorVector != outputTargetVector
    }

    ghost predicate Valid()
    {
      Shapes() && Separate()
    }

    /** The weights of the network, by rows. */
    ghost function W(): (w: Weights)
      requires Valid()
      reads wih, who
      ensures Shaped(w, inputNodes) && |w.ih| == hiddenNodes && |w.ho| == outputNodes
    {
      Weights(Rows(wih), Rows(who))
    }

    /** weights holds the entries of wih and who. */
    ghost predicate Mirrors()
      reads this, wih, who
    {
      Shapes() && Shaped(weights, inputNodes) && |weights.ih| == hiddenNodes && |weights.ho| == outputNodes
      && (forall h, i :: 0 <= h < hiddenNodes && 0 <= i < inputNodes ==> wih[h, i] == weights.ih[h][i])
      && (forall o, h :: 0 <= o < outputNodes && 0 <= h < hiddenNodes ==> who[o, h] == weights.ho[o][h])
    }

    /** The mirrored weights are the weights of the matrices. */
    lemma Mirrored()
      requires Valid() && Mirrors()
      ensures W() == weights
    {
      RowsAre(wih, weights.ih);
      RowsAre(who, weights.ho);
    }

    /** InitNeuralNetwork: allocates every vector, zero-filled, and both matrices at the
        configured sizes, and fills the matrices, row by row, input-hidden first, with the
        draws of the random source shifted by -0.5; rand(k) is the value of the k-th draw. */
    constructor InitNeuralNetwork(config: NNConfig, sig: real -> real, rand: nat -> real)
      ensures Valid()
      ensures inputNodes == config.inputNodes && hiddenNodes == config.hiddenNodes
      ensures outputNodes == config.outputNodes
      ensures epochs == config.epochs && learningRate == config.learningRate && this.sig == sig
      ensures fresh(inputVector) && fresh(hiddenInVector) && fresh(hiddenOutVector) && fresh(hiddenErrorVector)
      ensures fresh(outputInVector) && fresh(outputOutVector) && fresh(outputErrorVector)
      ensures fresh(outputTargetVector) && fresh(wih) && fresh(who)
      ensures Zeros(inputVector[..]) && Zeros(outputTargetVector[..])
      ensures Zeros(hiddenInVector[..]) && Zeros(hiddenOutVector[..]) && Zeros(hiddenErrorVector[..])
      ensures Zeros(outputInVector[..]) && Zeros(outputOutVector[..]) && Zeros(outputErrorVector[..])
      ensures forall h, i :: 0 <= h < hiddenNodes && 0 <= i < inputNodes ==>
        wih[h, i] == rand(h * inputNodes + i) - 0.5
      ensures forall o, h :: 0 <= o < outputNodes && 0 <= h < hiddenNodes ==>
        who[o, h] == rand(hiddenNodes * inputNodes + o * hiddenNodes + h) - 0.5
      ensures W() == InitialWeights(config, rand)
    {
      var inputs, hiddens, outputs := config.inputNodes, config.hiddenNodes, config.outputNodes;
      inputNodes, hiddenNodes, outputNodes := inputs, hiddens, outputs;
      var wih' := RandomWeights(hiddens, inputs, 0, rand);
      var who' := RandomWeights(outputs, hiddens, hiddens * inputs, rand);
      wih, who := wih', who';
      var input := ZeroVector(inputs);
      var target := ZeroVector(outputs);
      var hiddenIn := ZeroVector(hiddens);
      var hiddenOut := ZeroVector(hiddens);
      var hiddenError := ZeroVector(hiddens);
      var outputIn := ZeroVector(outputs);
      var outputOut := ZeroVector(outputs);
      var outputError := ZeroVector(outputs);
      inputVector, outputTargetVector := input, target;
      hiddenInVector, hiddenOutVector, hiddenErrorVector := hiddenIn, hiddenOut, hiddenError;
      outputInVector, outputOutVector, outputErrorVector := outputIn, outputOut, outputError;
      learningRate := config.learningRate;
      epochs := config.epochs;
      this.sig := sig;
    }

    /** The forward pass: every hidden node sums its weighted inputs and applies sig, then
        every output node does the same over the hidden activations. */
    method FeedForward()
      requires Valid()
      modifies hiddenInVector, hiddenOutVector, outputInVector, outputOutVector
      ensures hiddenInVector[..] == Sums(Rows(wih), inputVector[..])
      ensures hiddenOutVector[..] == Activations(sig, hiddenInVector[..])
      ensures outputInVector[..] == Sums(Rows(who), hiddenOutVector[..])
      ensures outputOutVector[..] == Activations(sig, outputInVector[..])
    {
      ForwardLayer(wih, inputVector, hiddenInVector, hiddenOutVector, sig);
      ForwardLayer(who, hiddenOutVector, outputInVector, outputOutVector, sig);
    }

    /** The errors of one training record: target minus output at the output layer, and at
        the hidden layer the output errors weighted by the hidden-output weights. */
    method ComputeErrors()
      requires Valid()
      modifies outputErrorVector, hiddenErrorVector
      ensures outputErrorVector[..] == Differences(outputTargetVector[..], outputOutVector[..])
      ensures hiddenErrorVector[..] == Sums(Columns(who), outputErrorVector[..])
    {
      for o := 0 to outputNodes
        invariant forall o' :: 0 <= o' < o ==> outputErrorVector[o'] == outputTargetVector[o'] - outputOutVector[o']
        modifies outputErrorVector
      {
        outputErrorVector[o] := outputTargetVector[o] - outputOutVector[o];
      }
      for h := 0 to hiddenNodes
        invariant forall h' :: 0 <= h' < h ==> hiddenErrorVector[h'] == Dot(Column(who, h'), outputErrorVector[..])
        modifies hiddenErrorVector
      {
        var err := ColumnDot(who, h, outputErrorVector);
        hiddenErrorVector[h] := err;
      }
    }

    /** The in-place online update of both weight matrices: hidden-output first, then
        input-hidden with the hidden errors of the weights before the update. */
    method UpdateWeights(learningRate: real)
      requires Valid()
      modifies this, who, wih
      ensures Rows(who) == Adjusted(old(Rows(who)), learningRate, outputErrorVector[..], outputOutVector[..], hiddenOutVector[..])
      ensures Rows(wih) == Adjusted(old(Rows(wih)), learningRate, hiddenErrorVector[..], hiddenOutVector[..], inputVector[..])
      ensures Mirrors() && weights == W()
    {
      AdjustWeights(who, learningRate, outputErrorVector, outputOutVector, hiddenOutVector);
      AdjustWeights(wih, learningRate, hiddenErrorVector, hiddenOutVector, inputVector);
      weights := W();
      RowsEntries(wih);
      RowsEntries(who);
    }

    /** One record of Train after it was read: the input nodes, the forward pass, the target
        vector, the errors and the weight update, which together are one Trained step. A
        label outside the target vector is the index panic, which leaves the weights as they
        were. */
    method TrainOnRecord(ds: MnistDataSet, learningRate: real) returns (err: Outcome)
      requires Valid() && Mirrors() && ds.Valid() && 1 <= ds.outputData && ds.inputData <= inputNodes
      modifies inputVector, hiddenInVector, hiddenOutVector, hiddenErrorVector
      modifies outputInVector, outputOutVector, outputErrorVector, outputTargetVector, this, wih, who
      ensures err == if 0 <= ds.outputDataVector[0] < outputNodes then Pass else Fail(IndexOutOfRange)
      ensures Mirrors()
      ensures err != Pass ==> unchanged(this) && unchanged(wih) && unchanged(who)
      ensures inputVector[..] == Scaled(ds.inputDataVector[..]) + old(inputVector[ds.inputData..])
      ensures err == Pass ==>
        hiddenInVector[..] == Sums(old(Rows(wih)), inputVector[..])
        && hiddenOutVector[..] == Activations(sig, hiddenInVector[..])
        && outputInVector[..] == Sums(old(Rows(who)), hiddenOutVector[..])
        && outputOutVector[..] == Activations(sig, outputInVector[..])
        && outputTargetVector[..] == Targets(outputNodes, ds.outputDataVector[0])
        && outputErrorVector[..] == Differences(outputTargetVector[..], outputOutVector[..])
        && hiddenErrorVector[..] == Sums(old(Columns(who)), outputErrorVector[..])
        && Rows(who) == Adjusted(old(Rows(who)), learningRate, outputErrorVector[..], outputOutVector[..], hiddenOutVector[..])
        && Rows(wih) == Adjusted(old(Rows(wih)), learningRate, hiddenErrorVector[..], hiddenOutVector[..], inputVector[..])
      ensures err == Pass ==> weights == Trained(old(weights), sig, learningRate, ds.outputDataVector[0], inputVector[..])
    {
      Mirrored();
      ColumnsTranspose(who);
      ds.InputData2InputNodes(inputVector);
      FeedForward();
      err := ds.OutputData2TargetNodes(outputTargetVector);
      if err != Pass {
        return;
      }
      ComputeErrors();
      UpdateWeights(learningRate);
    }

    /** One turn of the inner loop of Train after k records of lines: the read of record k
        and, when it succeeds, TrainOnRecord on it. A record that passes moves the weights one
        Trained step on its label and input nodes; any other outcome leaves them alone. */
    method TrainNext(ds: MnistDataSet, learningRate: real, ghost lines: seq<Line>, ghost k: nat, ghost tail: seq<real>)
      returns (err: Outcome)
      requires Valid() && Mirrors() && ds.Valid() && 1 <= ds.outputData && ds.inputData <= inputNodes
      requires k <= |lines| && ds.dataFile == File(lines, k, true) && inputVector[ds.inputData..] == tail
      modifies ds`dataFile, ds.inputDataVector, ds.outputDataVector
      modifies inputVector, hiddenInVector, hiddenOutVector, hiddenErrorVector
      modifies outputInVector, outputOutVector, outputErrorVector, outputTargetVector, this, wih, who
      ensures Mirrors() && ds.Valid() && inputVector[ds.inputData..] == tail
      ensures err == (if k < |lines| then DriverOutcome(lines[k], ds.outputData, ds.inputData, Training(outputNodes))
                      else Fail(EndOfFile))
      ensures err == Pass ==>
        ds.dataFile == File(lines, k + 1, true)
        && weights == Trained(old(weights), sig, learningRate, LabelOf(lines[k], ds.outputData + ds.inputData),
                          InputOf(lines[k], ds.outputData, ds.inputData, tail))
      ensures err != Pass ==>
        weights == old(weights) && ds.dataFile.File? && ds.dataFile.lines == lines
        && (k == |lines| ==> ds.dataFile == File(lines, k, false))
    {
      ghost var h := File(lines, 0, true);
      assert Pending(h) == lines;
      err := ReadPending(ds, h, k);
      if err == Pass {
        err := TrainOnRecord(ds, learningRate);
      }
    }

    /** The inner loop of Train over a freshly opened training file: it trains on records
        until a read fails or a label is out of range. It gets through exactly the passing
        prefix of the file, trains the weights on exactly those records, and ends with
        end-of-file when that is the whole file. */
    method TrainEpoch(ds: MnistDataSet, learningRate: real) returns (err: Outcome, ghost k: nat)
      requires Valid() && Mirrors() && ds.Valid() && 1 <= ds.outputData && ds.inputData <= inputNodes
      requires ds.dataFile.File? && ds.dataFile.open && ds.dataFile.cursor == 0
      modifies ds`dataFile, ds.inputDataVector, ds.outputDataVector
      modifies inputVector, hiddenInVector, hiddenOutVector, hiddenErrorVector
      modifies outputInVector, outputOutVector, outputErrorVector, outputTargetVector, this, wih, who
      ensures Mirrors() && ds.Valid() && ds.dataFile.File? && ds.dataFile.lines == old(ds.dataFile.lines)
      ensures err != Pass
      ensures var lines := old(ds.dataFile.lines);
        k == Passing(lines, ds.outputData, ds.inputData, Training(outputNodes))
        && err == (if k < |lines| then DriverOutcome(lines[k], ds.outputData, ds.inputData, Training(outputNodes))
                   else Fail(EndOfFile))
        && (err == Fail(EndOfFile) <==> k == |lines|)
        && (k == |lines| ==> ds.dataFile == File(lines, k, false))
      ensures inputVector[ds.inputData..] == old(inputVector[ds.inputData..])
      ensures weights == TrainedUpTo(old(weights), old(ds.dataFile.lines), k, ds.outputData, ds.inputData,
                                 old(inputVector[ds.inputData..]), sig, learningRate)
    {
      ghost var lines := ds.dataFile.lines;
      ghost var phase := Training(outputNodes);
      ghost var tail := inputVector[ds.inputData..];
      ghost var w0 := weights;
      k := 0;
      while true
        invariant Valid() && Mirrors() && ds.Valid() && k <= |lines| && ds.dataFile == File(lines, k, true)
        invariant Passing(lines, ds.outputData, ds.inputData, phase) >= k
        invariant inputVector[ds.inputData..] == tail
        invariant weights == TrainedUpTo(w0, lines, k, ds.outputData, ds.inputData, tail, sig, learningRate)
        decreases |lines| - k
        modifies ds`dataFile, ds.inputDataVector, ds.outputDataVector
        modifies inputVector, hiddenInVector, hiddenOutVector, hiddenErrorVector
        modifies outputInVector, outputOutVector, outputErrorVector, outputTargetVector, this, wih, who
      {
        err := TrainNext(ds, learningRate, lines, k, tail);
        if err != Pass {
          // a read error, the end of the file or the index panic of the target step
          break;
        }
        PassingGrows(lines, ds.outputData, ds.inputData, phase, k);
        TrainedUpToNext(w0, lines, k, ds.outputData, ds.inputData, tail, sig, learningRate);
        k := k + 1;
      }
      if k < |lines| {
        DriverOutcomeNotEnd(lines[k], ds.outputData, ds.inputData, phase);
      }
      PassingStops(lines, ds.outputData, ds.inputData, phase, k);
    }

    /** One epoch of Train on the opened training file: the inner loop over its records and,
        when that loop reached the end of the file, a new open of it. The epoch trains on
        the passing prefix of the file; it succeeds exactly when that is the whole file. */
    method Epoch(ds: MnistDataSet, learningRate: real, ghost w0: Weights, ghost done: seq<Line>, ghost e: nat,
                 ghost tail: seq<real>)
      returns (err: Outcome, ghost trained: seq<Line>)
      requires Valid() && Mirrors() && ds.Valid() && 1 <= ds.outputData && ds.inputData <= inputNodes
      requires ds.pathName + ds.trainingFileName in ds.files
      requires var lines := ds.files[ds.pathName + ds.trainingFileName];
        ds.dataFile == File(lines, 0, true) && done == Repeat(lines, e)
        && (e > 0 ==> StreamOutcome(lines, EndOfFile, ds.outputData, ds.inputData, Training(outputNodes)) == Pass)
      requires inputVector[ds.inputData..] == tail && Shaped(w0, ds.inputData + |tail|)
      requires weights == TrainedOn(w0, done, ds.outputData, ds.inputData, tail, sig, learningRate)
      modifies ds`dataFile, ds`curDataFileName, ds`opens, ds.inputDataVector, ds.outputDataVector
      modifies inputVector, hiddenInVector, hiddenOutVector, hiddenErrorVector
      modifies outputInVector, outputOutVector, outputErrorVector, outputTargetVector, this, wih, who
      ensures Mirrors() && ds.Valid() && inputVector[ds.inputData..] == tail
      ensures weights == TrainedOn(w0, done + trained, ds.outputData, ds.inputData, tail, sig, learningRate)
      ensures var lines := ds.files[ds.pathName + ds.trainingFileName];
        err == Pass ==>
          ds.dataFile == File(lines, 0, true) && ds.opens == old(ds.opens) + 1 && done + trained == Repeat(lines, e + 1)
          && StreamOutcome(lines, EndOfFile, ds.outputData, ds.inputData, Training(outputNodes)) == Pass
      ensures err != Pass ==>
        e == 0 && ds.opens == old(ds.opens)
        && TrainAborted(ds.files, ds.pathName + ds.trainingFileName, 1, done + trained, err,
                        ds.outputData, ds.inputData, Training(outputNodes))
    {
      ghost var lines := ds.dataFile.lines;
      PassingPrefix(lines, ds.outputData, ds.inputData, Training(outputNodes));
      ghost var k;
      err, k := TrainEpoch(ds, learningRate);
      trained := lines[..k];
      TrainedUpToPrefix(TrainedOn(w0, done, ds.outputData, ds.inputData, tail, sig, learningRate), lines, k,
                        ds.outputData, ds.inputData, tail, sig, learningRate);
      TrainedOnAppend(w0, done, trained, ds.outputData, ds.inputData, tail, sig, learningRate);
      if err == Fail(EndOfFile) {
        assert trained == lines;
        err := ds.OpenTrainingDataFile();
      }
    }

    /** The epoch loop of Train, entered with the outcome of the first open: it runs epochs
        until one fails or the count is reached. */
    method Epochs(ds: MnistDataSet, epochs: int, learningRate: real, firstOpen: Outcome, ghost tail: seq<real>)
      returns (err: Outcome, ghost e: nat, ghost done: seq<Line>)
      requires Valid() && Mirrors() && ds.Valid() && 1 <= ds.outputData && ds.inputData <= inputNodes
      requires inputVector[ds.inputData..] == tail
      requires var path := ds.pathName + ds.trainingFileName;
        (firstOpen == Pass ==> path in ds.files && ds.dataFile == File(ds.files[path], 0, true))
        && (firstOpen != Pass ==> TrainAborted(ds.files, path, 0, [], firstOpen, ds.outputData, ds.inputData,
                                            Training(outputNodes)))
      modifies ds`dataFile, ds`curDataFileName, ds`opens, ds.inputDataVector, ds.outputDataVector
      modifies inputVector, hiddenInVector, hiddenOutVector, hiddenErrorVector
      modifies outputInVector, outputOutVector, outputErrorVector, outputTargetVector, this, wih, who
      ensures Mirrors() && ds.Valid() && inputVector[ds.inputData..] == tail
      ensures weights == TrainedOn(old(weights), done, ds.outputData, ds.inputData, tail, sig, learningRate)
      ensures e <= epochs || e == 0
      ensures var path := ds.pathName + ds.trainingFileName;
        err == Pass ==>
          path in ds.files && ds.dataFile == File(ds.files[path], 0, true)
          && ds.opens == old(ds.opens) + e && done == Repeat(ds.files[path], e)
          && e == (if epochs > 0 then epochs else 0)
          && (e > 0 ==> StreamOutcome(ds.files[path], EndOfFile, ds.outputData, ds.inputData, Training(outputNodes)) == Pass)
      ensures err != Pass ==>
        ds.opens == old(ds.opens)
        && TrainAborted(ds.files, ds.pathName + ds.trainingFileName, e, done, err, ds.outputData, ds.inputData,
                        Training(outputNodes))
    {
      ghost var w0 := weights;
      done := [];
      err := firstOpen;
      e := 0;
      var epochsCounter := 0;
      while err == Pass && epochsCounter < epochs
        invariant Valid() && Mirrors() && ds.Valid() && epochsCounter == e
        invariant 0 <= e && (e <= epochs || e == 0)
        invariant inputVector[ds.inputData..] == tail
        invariant weights == TrainedOn(w0, done, ds.outputData, ds.inputData, tail, sig, learningRate)
        invariant var path := ds.pathName + ds.trainingFileName;
          err == Pass ==>
            path in ds.files && ds.dataFile == File(ds.files[path], 0, true)
            && ds.opens == old(ds.opens) + e && done == Repeat(ds.files[path], e)
            && (e > 0 ==> StreamOutcome(ds.files[path], EndOfFile, ds.outputData, ds.inputData, Training(outputNodes)) == Pass)
        invariant err != Pass ==>
          ds.opens == old(ds.opens)
          && TrainAborted(ds.files, ds.pathName + ds.trainingFileName, e, done, err, ds.outputData, ds.inputData,
                          Training(outputNodes))
        decreases epochs - epochsCounter
      {
        ghost var trained;
        err, trained := Epoch(ds, learningRate, w0, done, e, tail);
        done := done + trained;
        epochsCounter := epochsCounter + 1;
        e := e + 1;
      }
    }

    /** Train: opens the training file and runs the epochs; every epoch that reaches the end
        of the file opens the file again, and the file is closed on the way out. The weights
        end trained on exactly the records of the run, in order. */
    method Train(ds: MnistDataSet, epochs: int, learningRate: real) returns (err: Outcome, ghost records: nat)
      requires Valid() && ds.Valid() && 1 <= ds.outputData && ds.inputData <= inputNodes
      modifies ds`dataFile, ds`curDataFileName, ds`opens, ds.inputDataVector, ds.outputDataVector
      modifies inputVector, hiddenInVector, hiddenOutVector, hiddenErrorVector
      modifies outputInVector, outputOutVector, outputErrorVector, outputTargetVector, this, wih, who
      ensures ds.Valid()
      ensures var run := TrainRun(ds.files, ds.pathName + ds.trainingFileName, epochs,
                                  ds.outputData, ds.inputData, outputNodes);
        err == run.outcome && records == |run.trained| && ds.opens == old(ds.opens) + run.opens
        && W() == TrainedOn(old(W()), run.trained, ds.outputData, ds.inputData,
                            old(inputVector[ds.inputData..]), sig, learningRate)
      ensures inputVector[ds.inputData..] == old(inputVector[ds.inputData..])
      ensures !(ds.dataFile.File? && ds.dataFile.open)
      ensures var path := ds.pathName + ds.trainingFileName;
        err == Pass && path in ds.files ==> ds.dataFile == File(ds.files[path], 0, false)
    {
      weights := W();
      RowsEntries(wih);
      RowsEntries(who);
      err := ds.OpenTrainingDataFile();
      ghost var e, done;
      err, e, done := Epochs(ds, epochs, learningRate, err, inputVector[ds.inputData..]);
      records := |done|;
      TrainRunOf(ds.files, ds.pathName + ds.trainingFileName, epochs, e, done, err, ds.outputData, ds.inputData,
                 outputNodes);
      Mirrored();
      ds.CloseDataFile();
    }

    /** One record of Test after it was read: the input nodes, the forward pass, and whether
        the output decodes to the label. */
    method TestOnRecord(ds: MnistDataSet) returns (ok: bool)
      requires Valid() && ds.Valid() && 1 <= ds.outputData && ds.inputData <= inputNodes
      modifies inputVector, hiddenInVector, hiddenOutVector, outputInVector, outputOutVector
      ensures inputVector[..] == Scaled(ds.inputDataVector[..]) + old(inputVector[ds.inputData..])
      ensures hiddenInVector[..] == Sums(Rows(wih), inputVector[..])
      ensures hiddenOutVector[..] == Activations(sig, hiddenInVector[..])
      ensures outputInVector[..] == Sums(Rows(who), hiddenOutVector[..])
      ensures outputOutVector[..] == Activations(sig, outputInVector[..])
      ensures ok <==> ds.outputDataVector[0] == Argmax(outputOutVector[..])
      ensures ok <==> ds.outputDataVector[0] == Argmax(Predict(W(), sig, inputVector[..]))
    {
      ds.InputData2InputNodes(inputVector);
      FeedForward();
      ok := ds.AreOutputNotesOK(outputOutVector);
    }

    /** One turn of the read loop of Test after k records: the read of record k of the
        pending lines of h and, when it succeeds, TestOnRecord on it, which answers whether
        that line is a hit under the weights. */
    method TestNext(ds: MnistDataSet, ghost h: Handle, ghost k: nat, ghost tail: seq<real>) returns (err: Outcome, ok: bool)
      requires Valid() && ds.Valid() && 1 <= ds.outputData && ds.inputData <= inputNodes
      requires HandleOk(h) && k <= |Pending(h)| && ds.dataFile == Along(h, k) && inputVector[ds.inputData..] == tail
      modifies ds`dataFile, ds.inputDataVector, ds.outputDataVector
      modifies inputVector, hiddenInVector, hiddenOutVector, outputInVector, outputOutVector
      ensures ds.Valid() && inputVector[ds.inputData..] == tail
      ensures err == (if k < |Pending(h)| then ReadOutcome(Pending(h)[k], ds.outputData + ds.inputData)
                      else Fail(End(h)))
      ensures err == Fail(EndOfFile) ==> k == |Pending(h)|
      ensures err == Pass ==>
        ds.dataFile == Along(h, k + 1) && (ok <==> Hit(W(), Pending(h)[k], ds.outputData, ds.inputData, tail, sig))
    {
      if k < |Pending(h)| {
        ReadOutcomeNotEnd(Pending(h)[k], ds.outputData + ds.inputData);
      }
      ok := false;
      err := ReadPending(ds, h, k);
      if err == Pass {
        ok := TestOnRecord(ds);
      }
    }

    /** The read loop of Test over whatever the handle delivers: it gets through the
        passing prefix of the pending lines, counting as hits exactly the records that decode
        to their label, and returns the error that ends it. */
    method TestRecords(ds: MnistDataSet) returns (score: nat, failure: nat, err: Outcome)
      requires Valid() && ds.Valid() && 1 <= ds.outputData && ds.inputData <= inputNodes
      modifies ds`dataFile, ds.inputDataVector, ds.outputDataVector
      modifies inputVector, hiddenInVector, hiddenOutVector, outputInVector, outputOutVector
      ensures ds.Valid() && err != Pass
      ensures inputVector[ds.inputData..] == old(inputVector[ds.inputData..])
      ensures var stream := Pending(old(ds.dataFile));
        score + failure == Passing(stream, ds.outputData, ds.inputData, Testing)
        && score == HitsUpTo(W(), stream, score + failure, ds.outputData, ds.inputData, inputVector[ds.inputData..], sig)
        && err == (if score + failure < |stream| then ReadOutcome(stream[score + failure], ds.outputData + ds.inputData)
                   else Fail(End(old(ds.dataFile))))
        && (err == Fail(EndOfFile) ==> score + failure == |stream|)
    {
      ghost var h := ds.dataFile;
      ghost var stream := Pending(h);
      ghost var tail := inputVector[ds.inputData..];
      score, failure := 0, 0;
      ghost var k := 0;
      while true
        invariant Valid() && ds.Valid() && k == score + failure <= |stream| && ds.dataFile == Along(h, k)
        invariant inputVector[ds.inputData..] == tail
        invariant Passing(stream, ds.outputData, ds.inputData, Testing) >= k
        invariant score == HitsUpTo(W(), stream, k, ds.outputData, ds.inputData, tail, sig)
        decreases |stream| - k
      {
        var ok;
        err, ok := TestNext(ds, h, k, tail);
        if err != Pass {
          break;
        }
        PassingGrows(stream, ds.outputData, ds.inputData, Testing, k);
        if ok {
          score := score + 1;
        } else {
          failure := failure + 1;
        }
        k := k + 1;
      }
      PassingStops(stream, ds.outputData, ds.inputData, Testing, k);
      assert inputVector[ds.inputData..] == tail;
    }

    /** Test: runs every record of the test file through the network and counts the records
        whose output decodes to their label; at the end of the file the result is the hit
        rate. Any other error ends the run with a result of 0. The weights do not change. */
    method Test(ds: MnistDataSet) returns (result: real, err: Outcome, ghost hits: nat, ghost misses: nat)
      requires Valid() && ds.Valid() && 1 <= ds.outputData && ds.inputData <= inputNodes
      modifies ds`dataFile, ds`curDataFileName, ds`opens, ds.inputDataVector, ds.outputDataVector
      modifies inputVector, hiddenInVector, hiddenOutVector, outputInVector, outputOutVector
      ensures ds.Valid() && ds.opens == old(ds.opens) + 1
      ensures !(ds.dataFile.File? && ds.dataFile.open)
      ensures W() == old(W()) && inputVector[ds.inputData..] == old(inputVector[ds.inputData..])
      ensures var h := OpenAttempt(old(ds.dataFile), ds.files, ds.pathName + ds.testFileName);
        var lines := Pending(h);
        err == StreamOutcome(lines, End(h), ds.outputData, ds.inputData, Testing)
        && (err == Pass ==>
              hits == Hits(W(), lines, ds.outputData, ds.inputData, inputVector[ds.inputData..], sig)
              && hits + misses == |lines| && result == Accuracy(hits, misses))
        && (err == Pass && 0 < |lines|
            && (forall j :: 0 <= j < |lines| ==> Hit(W(), lines[j], ds.outputData, ds.inputData, inputVector[ds.inputData..], sig))
            ==> result == 1.0)
      ensures err != Pass ==> result == 0.0
      ensures 0.0 <= result <= 1.0
    {
      result := 0.0;
      err := ds.OpenTestDataFile();
      ghost var h := ds.dataFile;
      var score, failure;
      score, failure, err := TestRecords(ds);
      if score + failure < |Pending(h)| {
        ReadOutcomeNotEnd(Pending(h)[score + failure], ds.outputData + ds.inputData);
      }
      if err == Fail(EndOfFile) {
        err := Pass;
        result := Accuracy(score, failure);
        HitsUpToAll(W(), Pending(h), score + failure, ds.outputData, ds.inputData, inputVector[ds.inputData..], sig);
        HitsAll(W(), Pending(h), ds.outputData, ds.inputData, inputVector[ds.inputData..], sig);
      }
      hits, misses := score, failure;
      ds.CloseDataFile();
    }
  }

  /** Opening a file over a closed one: the lines pending are those of the file when it
      exists, and none otherwise, where a read then reports the closed file. */
  lemma OpenOverClosed(h: Handle, files: map<string, seq<Line>>, path: string)
    requires HandleOk(h) && h.File? && !h.open
    ensures var h' := OpenAttempt(h, files, path);
      HandleOk(h')
      && Pending(h') == (if path in files then files[path] else [])
      && End(h') == (if path in files then EndOfFile else FileClosed)
  {
    if path in files {
      assert files[path][0..] == files[path];
    }
  }

  /** trainAndTest: builds the network and the adapter, trains, and tests when training
      succeeded; an error of either phase is returned with a result of 0. On success the
      result is the hit rate on the test file of the initial weights trained on the records
      of the training run. */
  method TrainAndTest(nnConfig: NNConfig, dsConfig: DSConfig, files: map<string, seq<Line>>,
                      sig: real -> real, rand: nat -> real)
    returns (err: Outcome, result: real)
    requires 1 <= dsConfig.outputData && dsConfig.inputData <= nnConfig.inputNodes
    ensures 0.0 <= result <= 1.0 && (err != Pass ==> result == 0.0)
    ensures var run := TrainRun(files, dsConfig.pathName + dsConfig.trainingFileName, nnConfig.epochs,
                                dsConfig.outputData, dsConfig.inputData, nnConfig.outputNodes);
      var testPath := dsConfig.pathName + dsConfig.testFileName;
      (run.outcome != Pass ==> err == run.outcome)
      && (run.outcome == Pass ==>
            err == StreamOutcome(if testPath in files then files[testPath] else [],
                                 if testPath in files then EndOfFile else FileClosed,
                                 dsConfig.outputData, dsConfig.inputData, Testing))
    ensures var run := TrainRun(files, dsConfig.pathName + dsConfig.trainingFileName, nnConfig.epochs,
                                dsConfig.outputData, dsConfig.inputData, nnConfig.outputNodes);
      var testPath := dsConfig.pathName + dsConfig.testFileName;
      var tail := ZeroTail(nnConfig.inputNodes - dsConfig.inputData);
      var trained := TrainedOn(InitialWeights(nnConfig, rand), run.trained, dsConfig.outputData, dsConfig.inputData,
                               tail, sig, nnConfig.learningRate);
      err == Pass ==>
        testPath in files
        && result == TestAccuracy(trained, files[testPath], dsConfig.outputData, dsConfig.inputData, tail, sig)
  {
    var nn := new NeuralNetwork.InitNeuralNetwork(nnConfig, sig, rand);
    var ds := new MnistDataSet.InitDataSet(dsConfig, files);
    ghost var tail := ZeroTail(nnConfig.inputNodes - dsConfig.inputData);
    assert nn.inputVector[ds.inputData..] == tail;
    ghost var w0 := nn.W();
    ghost var run := TrainRun(files, dsConfig.pathName + dsConfig.trainingFileName, nnConfig.epochs,
                              dsConfig.outputData, dsConfig.inputData, nnConfig.outputNodes);
    ghost var records;
    err, records := nn.Train(ds, nn.epochs, nn.learningRate);
    if err != Pass {
      return err, 0.0;
    }
    ghost var trained := nn.W();
    assert nn.inputVector[ds.inputData..] == tail;
    OpenOverClosed(ds.dataFile, files, dsConfig.pathName + dsConfig.testFileName);
    assert trained == TrainedOn(InitialWeights(nnConfig, rand), run.trained, dsConfig.outputData, dsConfig.inputData,
                                tail, sig, nnConfig.learningRate);
    ghost var hits, misses;
    result, err, hits, misses := nn.Test(ds);
    if err != Pass {
      return err, 0.0;
    }
    ghost var testPath := dsConfig.pathName + dsConfig.testFileName;
    assert testPath in files;
    assert hits == Hits(nn.W(), files[testPath], ds.outputData, ds.inputData, nn.inputVector[ds.inputData..], sig);
    assert hits == Hits(trained, files[testPath], dsConfig.outputData, dsConfig.inputData, tail, sig);
    TestAccuracyOf(trained, files[testPath], dsConfig.outputData, dsConfig.inputData, tail, sig, hits, misses);
    return Pass, result;
  }
}
