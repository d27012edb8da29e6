/** The MNIST dataset adapter (package DataSetPort): a record file is a sequence of lines, each
    line a sequence of tokens as the Go scanner classifies them. ReadNextDataSet stores the
    integer tokens of the next line into a label buffer and a feature buffer; the other
    operations turn those buffers into node vectors for the network and back. */
module DataSetPort {

  /** A token of a record line, by the kind the text scanner reports for it. */
  datatype Token =
    | Int(value: nat)      // an integer literal (a minus sign is a token of its own)
    | Float                // a floating-point literal
    | Other                // any other negative token kind: identifier, string, char, raw string
    | Punct(symbol: char)  // a single character the scanner returns as itself, such as ',' or '-'

  /** A line of a record file: the tokens of a line that could be read, or a line that the
      line reader rejects. */
  datatype Line = Record(tokens: seq<Token>) | Unscannable

  datatype Error =
    | EndOfFile
    | NoValidationFileName
    | OpenFailed(path: string)
    | InvalidFile                               // reading through a handle that was never opened
    | FileClosed                                // reading through a closed handle
    | LineUnreadable
    | FloatToken
    | NotAnInt
    | MoreDataExpected(read: nat, expected: nat)
    | IndexOutOfRange                           // the runtime's index-out-of-range panic

  /** A Go `error` result: nil or an error value. */
  datatype Outcome = Pass | Fail(error: Error)

  datatype DSConfig = DSConfig(pathName: string, trainingFileName: string, validationFileName: string,
                               testFileName: string, inputData: nat, outputData: nat)

  /** The open file: the lines of the file, the number of lines read so far and whether it is
      still open. NoFile is the nil handle of an adapter that never opened a file. */
  datatype Handle = NoFile | File(lines: seq<Line>, cursor: nat, open: bool)

  ghost predicate HandleOk(h: Handle) {
    h.File? ==> h.cursor <= |h.lines|
  }

  /** What the line reader hands back: the tokens of the next line, or an error. */
  datatype Fetched = Got(tokens: seq<Token>) | Failed(error: Error)

  function FetchLine(h: Handle): Fetched
    requires HandleOk(h)
  {
    match h
    case NoFile => Failed(InvalidFile)
    case File(lines, cursor, open) =>
      if !open then Failed(FileClosed)
      else if cursor == |lines| then Failed(EndOfFile)
      else match lines[cursor]
        case Unscannable => Failed(LineUnreadable)
        case Record(toks) => Got(toks)
  }

  function Closed(h: Handle): Handle {
    match h
    case NoFile => NoFile
    case File(lines, cursor, _) => File(lines, cursor, false)
  }

  /** The handle after one line read: a failed read closes the file. */
  function AfterFetch(h: Handle): (h': Handle)
    requires HandleOk(h)
    ensures HandleOk(h')
  {
    match h
    case NoFile => NoFile
    case File(lines, cursor, open) =>
      if !open then h
      else if cursor == |lines| then Closed(h)
      else File(lines, cursor + 1, lines[cursor].Record?)
  }

  /** The lines a sequence of reads through h delivers, and the error that follows them. */
  function Pending(h: Handle): seq<Line>
    requires HandleOk(h)
  {
    if h.File? && h.open then h.lines[h.cursor..] else []
  }

  /** Whether a read through h finds a line. */
  predicate HasLine(h: Handle) {
    h.File? && h.open && h.cursor < |h.lines|
  }

  function End(h: Handle): Error {
    match h
    case NoFile => InvalidFile
    case File(_, _, open) => if open then EndOfFile else FileClosed
  }

  /** The handle after an attempt to open path: a failed open keeps the previous handle. */
  function OpenAttempt(h: Handle, files: map<string, seq<Line>>, path: string): Handle {
    if path in files then File(files[path], 0, true) else h
  }

  // ---------------------------------------------------------------------------------------
  // The token loop of ReadNextDataSet

  /** The state of the token loop: the integers stored so far and whether the loop is still
      running (Pass) or has returned an error. */
  datatype Scan = Scan(ints: seq<nat>, status: Outcome)

  /** The token loop run over toks, left to right; capacity is the number of slots of the two
      buffers (outputData + inputData). One more integer than fits is the index panic. */
  function ScanTokens(toks: seq<Token>, capacity: nat): (s: Scan)
    ensures |s.ints| <= capacity
    decreases |toks|
  {
    if toks == [] then Scan([], Pass)
    else
      var prev := ScanTokens(toks[..|toks| - 1], capacity);
      if prev.status.Fail? then prev
      else match toks[|toks| - 1]
        case Int(n) =>
          if |prev.ints| < capacity then Scan(prev.ints + [n], Pass)
          else Scan(prev.ints, Fail(IndexOutOfRange))
        case Float => Scan(prev.ints, Fail(FloatToken))
        case Other => Scan(prev.ints, Fail(NotAnInt))
        case Punct(_) => prev
  }

  /** The error ReadNextDataSet returns for a line that was read. */
  function RecordStatus(toks: seq<Token>, capacity: nat): Outcome {
    var s := ScanTokens(toks, capacity);
    if s.status.Fail? then s.status
    else if |s.ints| < capacity then Fail(MoreDataExpected(|s.ints|, capacity))
    else Pass
  }

  /** The outcome of reading a line of a file. */
  function ReadOutcome(line: Line, capacity: nat): Outcome {
    match line
    case Unscannable => Fail(LineUnreadable)
    case Record(toks) => RecordStatus(toks, capacity)
  }

  /** The label a parsed line leaves in the first slot of the label buffer. */
  function LabelOf(line: Line, capacity: nat): nat {
    match line
    case Unscannable => 0
    case Record(toks) =>
      var ints := ScanTokens(toks, capacity).ints;
      if ints == [] then 0 else ints[0]
  }

  /** The feature buffer a record line leaves behind: its integers after the first
      outputData, when the line holds a full record. */
  function FeaturesOf(line: Line, outputData: nat, inputData: nat): (f: seq<int>)
    ensures |f| == inputData
  {
    match line
    case Unscannable => seq(inputData, _ => 0)
    case Record(toks) =>
      var ints := ScanTokens(toks, outputData + inputData).ints;
      if |ints| == outputData + inputData then ints[outputData..] else seq(inputData, _ => 0)
  }

  /** A buffer after the integers vals were stored from position offset on: slot k holds
      vals[offset + k] when there is one, and keeps its old value otherwise. */
  function Overlay(buf: seq<int>, vals: seq<nat>, offset: nat): (r: seq<int>)
    ensures |r| == |buf|
  {
    seq(|buf|, k requires 0 <= k < |buf| => if offset + k < |vals| then vals[offset + k] else buf[k])
  }

  /** Storing integer number |vals| writes slot |vals| - offset of a buffer that starts at
      offset when that slot exists, and leaves the buffer as it was otherwise. */
  lemma OverlayExtend(buf: seq<int>, vals: seq<nat>, offset: nat, n: nat)
    ensures |vals| < offset ==> Overlay(buf, vals + [n], offset) == Overlay(buf, vals, offset)
    ensures offset <= |vals| < offset + |buf| ==>
      Overlay(buf, vals + [n], offset) == Overlay(buf, vals, offset)[|vals| - offset := n]
    ensures offset + |buf| <= |vals| ==> Overlay(buf, vals + [n], offset) == Overlay(buf, vals, offset)
  {
    if |vals| < offset {
      assert forall k :: 0 <= k < |buf| ==> Overlay(buf, vals + [n], offset)[k] == Overlay(buf, vals, offset)[k];
    }
  }

  /** A full set of integers overwrites the whole buffer, whatever it held. */
  lemma OverlayFull(buf: seq<int>, vals: seq<nat>, offset: nat)
    requires |vals| == offset + |buf|
    ensures Overlay(buf, vals, offset) == vals[offset..]
  {
    assert forall k :: 0 <= k < |buf| ==> Overlay(buf, vals, offset)[k] == vals[offset..][k];
  }

  /** One step of the token loop. */
  lemma ScanStep(toks: seq<Token>, i: nat, capacity: nat)
    requires i < |toks| && ScanTokens(toks[..i], capacity).status == Pass
    ensures var prev := ScanTokens(toks[..i], capacity);
      ScanTokens(toks[..i + 1], capacity) ==
        match toks[i]
        case Int(n) =>
          if |prev.ints| < capacity then Scan(prev.ints + [n], Pass)
          else Scan(prev.ints, Fail(IndexOutOfRange))
        case Float => Scan(prev.ints, Fail(FloatToken))
        case Other => Scan(prev.ints, Fail(NotAnInt))
        case Punct(_) => prev
  {
    assert toks[..i + 1][..i] == toks[..i];
  }

  /** A failed scan stays failed whatever tokens follow. */
  lemma {:induction false} FailureSticks(toks: seq<Token>, i: nat, capacity: nat)
    requires i <= |toks|
    requires ScanTokens(toks[..i], capacity).status.Fail?
    ensures ScanTokens(toks, capacity) == ScanTokens(toks[..i], capacity)
    decreases |toks| - i
  {
    if i < |toks| {
      assert toks[..|toks| - 1][..i] == toks[..i];
      FailureSticks(toks[..|toks| - 1], i, capacity);
    } else {
      assert toks[..i] == toks;
    }
  }

  // Reference definitions: the integer tokens of a line, and lines of numbers only.

  function IntValues(toks: seq<Token>): seq<nat>
    decreases |toks|
  {
    if toks == [] then []
    else
      var prev := IntValues(toks[..|toks| - 1]);
      match toks[|toks| - 1]
      case Int(n) => prev + [n]
      case _ => prev
  }

  ghost predicate OnlyNumbers(toks: seq<Token>) {
    forall i :: 0 <= i < |toks| ==> toks[i].Int? || toks[i].Punct?
  }

  /** On a line of integers and punctuation the loop stores exactly the integers, in order,
      unless there are more than fit, where it stops at the first one too many. */
  lemma {:induction false} ScanOfNumbers(toks: seq<Token>, capacity: nat)
    requires OnlyNumbers(toks)
    ensures |IntValues(toks)| <= capacity ==> ScanTokens(toks, capacity) == Scan(IntValues(toks), Pass)
    ensures |IntValues(toks)| > capacity ==>
      ScanTokens(toks, capacity) == Scan(IntValues(toks)[..capacity], Fail(IndexOutOfRange))
    decreases |toks|
  {
    if toks != [] {
      var init := toks[..|toks| - 1];
      assert OnlyNumbers(init) by {
        forall i | 0 <= i < |init| ensures init[i].Int? || init[i].Punct? { assert init[i] == toks[i]; }
      }
      ScanOfNumbers(init, capacity);
      var last := toks[|toks| - 1];
      assert last.Int? || last.Punct?;
      if last.Int? && |IntValues(init)| == capacity {
        assert IntValues(toks)[..capacity] == IntValues(init);
      } else if last.Int? && |IntValues(init)| > capacity {
        assert IntValues(toks)[..capacity] == IntValues(init)[..capacity];
      }
    }
  }

  /** The error of a line of integers and punctuation depends only on how many integers it
      holds: exactly the capacity is a record, fewer is an error, more is the index panic. */
  lemma NumbersRecordStatus(toks: seq<Token>, capacity: nat)
    requires OnlyNumbers(toks)
    ensures RecordStatus(toks, capacity) ==
      if |IntValues(toks)| == capacity then Pass
      else if |IntValues(toks)| < capacity then Fail(MoreDataExpected(|IntValues(toks)|, capacity))
      else Fail(IndexOutOfRange)
  {
    ScanOfNumbers(toks, capacity);
  }

  /** Punctuation anywhere in a line is skipped: it changes neither the integers stored nor
      the outcome. */
  lemma {:induction false} PunctIgnored(p: seq<Token>, c: char, q: seq<Token>, capacity: nat)
    ensures ScanTokens(p + [Punct(c)] + q, capacity) == ScanTokens(p + q, capacity)
    decreases |q|
  {
    if q == [] {
      assert p + [Punct(c)] + q == p + [Punct(c)];
      assert (p + [Punct(c)])[..|p|] == p;
      assert p + q == p;
    } else {
      var q' := q[..|q| - 1];
      PunctIgnored(p, c, q', capacity);
      assert (p + [Punct(c)] + q)[..|p + [Punct(c)] + q| - 1] == p + [Punct(c)] + q';
      assert (p + q)[..|p + q| - 1] == p + q';
    }
  }

  /** A float or a non-number token that the loop reaches ends the line with its error at once,
      whatever follows; the integers stored before it stay stored. */
  lemma BadTokenRejected(p: seq<Token>, t: Token, q: seq<Token>, capacity: nat)
    requires t.Float? || t.Other?
    requires ScanTokens(p, capacity).status == Pass
    ensures ScanTokens(p + [t] + q, capacity).ints == ScanTokens(p, capacity).ints
    ensures RecordStatus(p + [t] + q, capacity) == Fail(if t.Float? then FloatToken else NotAnInt)
  {
    var toks := p + [t] + q;
    assert toks[..|p| + 1] == p + [t];
    assert (p + [t])[..|p|] == p;
    FailureSticks(toks, |p| + 1, capacity);
  }

  /** A record rendered as a comma-separated line of its integers. */
  function Render(vals: seq<nat>): seq<Token>
    decreases |vals|
  {
    if vals == [] then []
    else if |vals| == 1 then [Int(vals[0])]
    else Render(vals[..|vals| - 1]) + [Punct(','), Int(vals[|vals| - 1])]
  }

  lemma {:induction false} RenderValues(vals: seq<nat>)
    ensures OnlyNumbers(Render(vals)) && IntValues(Render(vals)) == vals
    decreases |vals|
  {
    if |vals| > 1 {
      var init := vals[..|vals| - 1];
      RenderValues(init);
      var r := Render(vals);
      assert r == Render(init) + [Punct(','), Int(vals[|vals| - 1])];
      assert r[..|r| - 1] == Render(init) + [Punct(',')];
      assert IntValues(Render(init) + [Punct(',')]) == IntValues(Render(init)) by {
        assert (Render(init) + [Punct(',')])[..|Render(init)|] == Render(init);
      }
      assert init + [vals[|vals| - 1]] == vals;
    } else if |vals| == 1 {
      assert Render(vals)[..0] == [];
    }
  }

  /** Reading back a rendered record: a line holding the labels and then the features, comma
      separated, is a record, and it leaves exactly those labels and features in the buffers,
      whatever the buffers held before. */
  lemma ReadRenderedRecord(labels: seq<nat>, features: seq<nat>, labelBuf: seq<int>, featureBuf: seq<int>)
    requires |labelBuf| == |labels| && |featureBuf| == |features|
    ensures var toks := Render(labels + features);
      var capacity := |labels| + |features|;
      RecordStatus(toks, capacity) == Pass
      && Overlay(labelBuf, ScanTokens(toks, capacity).ints, 0) == labels
      && Overlay(featureBuf, ScanTokens(toks, capacity).ints, |labels|) == features
  {
    var vals := labels + features;
    RenderValues(vals);
    ScanOfNumbers(Render(vals), |vals|);
  }

  // ---------------------------------------------------------------------------------------
  // Node vectors

  /** The input node value of a raw feature value. */
  function Scale(v: int): real {
    (v as real) / 255.0 * 0.99 + 0.01
  }

  lemma ScaleRange(v: int)
    requires 0 <= v <= 255
    ensures 0.01 <= Scale(v) <= 1.0
    ensures v == 0 ==> Scale(v) == 0.01
    ensures v == 255 ==> Scale(v) == 1.0
  {
  }

  /** The input node values of a feature buffer. */
  function Scaled(features: seq<int>): (s: seq<real>)
    ensures |s| == |features| && forall k :: 0 <= k < |features| ==> s[k] == Scale(features[k])
  {
    seq(|features|, k requires 0 <= k < |features| => Scale(features[k]))
  }

  /** The target vector of length n for a label: 0.99 at the label, 0.01 everywhere else
      (everywhere, when the label is out of range). */
  function Targets(n: nat, hot: int): seq<real> {
    seq(n, k => if k == hot then 0.99 else 0.01)
  }

  /** The state of the running maximum of OutputNotes2OutputData and AreOutputNotesOK. */
  datatype Peak = Peak(max: real, index: nat)

  /** The left-to-right scan with strict `>` from a floor of 0.0 over v. */
  function ScanPeak(v: seq<real>): Peak
    decreases |v|
  {
    if v == [] then Peak(0.0, 0)
    else
      var p := ScanPeak(v[..|v| - 1]);
      if v[|v| - 1] > p.max then Peak(v[|v| - 1], |v| - 1) else p
  }

  /** The class index the network's output vector v decodes to. */
  function Argmax(v: seq<real>): nat {
    ScanPeak(v).index
  }

  /** k is the first index of the greatest entry of v, and that entry exceeds 0.0. */
  ghost predicate FirstStrictMax(v: seq<real>, k: int) {
    0 <= k < |v| && 0.0 < v[k]
    && (forall j :: 0 <= j < |v| ==> v[j] <= v[k])
    && (forall j :: 0 <= j < k ==> v[j] < v[k])
  }

  ghost predicate NonePositive(v: seq<real>) {
    forall j :: 0 <= j < |v| ==> v[j] <= 0.0
  }

  lemma {:induction false} ScanPeakFacts(v: seq<real>)
    ensures NonePositive(v) ==> ScanPeak(v) == Peak(0.0, 0)
    ensures !NonePositive(v) ==> FirstStrictMax(v, ScanPeak(v).index) && ScanPeak(v).max == v[ScanPeak(v).index]
    decreases |v|
  {
    if v != [] {
      var init := v[..|v| - 1];
      ScanPeakFacts(init);
      assert forall j :: 0 <= j < |init| ==> init[j] == v[j];
      if NonePositive(v) {
        assert NonePositive(init);
      }
    }
  }

  /** Decoding, both ways: an output vector decodes to k exactly when k is the first index of
      its strict maximum, or k is 0 and no entry exceeds 0.0. */
  lemma ArgmaxMeaning(v: seq<real>, k: int)
    ensures Argmax(v) == k <==> if NonePositive(v) then k == 0 else FirstStrictMax(v, k)
  {
    ScanPeakFacts(v);
    if !NonePositive(v) && FirstStrictMax(v, k) {
      assert FirstStrictMax(v, Argmax(v));
    }
  }

  /** A target vector decodes back to its label. */
  lemma TargetsDecode(n: nat, hot: nat)
    requires hot < n
    ensures Argmax(Targets(n, hot)) == hot
  {
    var t := Targets(n, hot);
    assert FirstStrictMax(t, hot);
    assert !NonePositive(t) by { assert t[hot] > 0.0; }
    ArgmaxMeaning(t, hot);
  }

  /** The tie-break on [0.5, 0.5, 0.1], which decodes to 0, and the target vector of label 3
      among 10 classes. */
  lemma DecodingExamples()
    ensures Argmax([0.5, 0.5, 0.1]) == 0
    ensures Targets(10, 3) == [0.01, 0.01, 0.01, 0.99, 0.01, 0.01, 0.01, 0.01, 0.01, 0.01]
  {
    var v := [0.5, 0.5, 0.1];
    assert FirstStrictMax(v, 0);
    ArgmaxMeaning(v, 0);
  }

  /** The running maximum loop shared by OutputNotes2OutputData and AreOutputNotesOK. */
  method MaxIndex(v: array<real>) returns (maxIdx: nat)
    ensures maxIdx == Argmax(v[..])
  {
    var max := 0.0;
    maxIdx := 0;
    for o := 0 to v.Length
      invariant ScanPeak(v[..o]) == Peak(max, maxIdx)
    {
      assert v[..o + 1][..o] == v[..o];
      if v[o] > max {
        max := v[o];
        maxIdx := o;
      }
    }
    assert v[..v.Length] == v[..];
  }

  // ---------------------------------------------------------------------------------------
  // The adapter

  class MnistDataSet {
    const pathName: string
    const trainingFileName: string
    const validationFileName: string
    const testFileName: string
    const inputData: nat
    const outputData: nat
    const inputDataVector: array<int>
    const outputDataVector: array<int>
    var dataFile: Handle
    var curDataFileName: string
    /** The files the adapter can open, by path. */
    const files: map<string, seq<Line>>
    /** The number of attempts to open a file so far. */
    ghost var opens: nat

    ghost predicate Valid()
      reads this
    {
      inputDataVector.Length == inputData && outputDataVector.Length == outputData
      && inputDataVector != outputDataVector
      && HandleOk(dataFile)
    }

    /** InitDataSet: takes over the configuration and allocates the two buffers. */
    constructor InitDataSet(config: DSConfig, files: map<string, seq<Line>>)
      ensures Valid() && fresh(inputDataVector) && fresh(outputDataVector)
      ensures pathName == config.pathName && trainingFileName == config.trainingFileName
      ensures validationFileName == config.validationFileName && testFileName == config.testFileName
      ensures inputData == config.inputData && outputData == config.outputData
      ensures inputDataVector[..] == seq(config.inputData, _ => 0)
      ensures outputDataVector[..] == seq(config.outputData, _ => 0)
      ensures dataFile == NoFile && this.files == files && opens == 0
    {
      pathName := config.pathName;
      trainingFileName := config.trainingFileName;
      validationFileName := config.validationFileName;
      testFileName := config.testFileName;
      inputData := config.inputData;
      outputData := config.outputData;
      inputDataVector := new int[config.inputData](_ => 0);
      outputDataVector := new int[config.outputData](_ => 0);
      dataFile := NoFile;
      curDataFileName := "";
      this.files := files;
      opens := 0;
    }

    method OpenDataFile(fileName: string) returns (err: Outcome)
      requires Valid()
      modifies this`dataFile, this`curDataFileName, this`opens
      ensures Valid() && opens == old(opens) + 1
      ensures pathName + fileName in files ==>
        err == Pass && dataFile == File(files[pathName + fileName], 0, true) && curDataFileName == fileName
      ensures pathName + fileName !in files ==>
        err == Fail(OpenFailed(pathName + fileName)) && dataFile == old(dataFile)
        && curDataFileName == old(curDataFileName)
    {
      opens := opens + 1;
      var path := pathName + fileName;
      if path !in files {
        return Fail(OpenFailed(path));
      }
      dataFile := File(files[path], 0, true);
      curDataFileName := fileName;
      return Pass;
    }

    method OpenTrainingDataFile() returns (err: Outcome)
      requires Valid()
      modifies this`dataFile, this`curDataFileName, this`opens
      ensures Valid() && opens == old(opens) + 1
      ensures dataFile == OpenAttempt(old(dataFile), files, pathName + trainingFileName)
      ensures err == if pathName + trainingFileName in files then Pass
                     else Fail(OpenFailed(pathName + trainingFileName))
    {
      err := OpenDataFile(trainingFileName);
    }

    /** With no validation file name configured, fails without opening anything. */
    method OpenValidationDataFile() returns (err: Outcome)
      requires Valid()
      modifies this`dataFile, this`curDataFileName, this`opens
      ensures Valid()
      ensures validationFileName == "" ==>
        err == Fail(NoValidationFileName) && opens == old(opens) && dataFile == old(dataFile)
        && curDataFileName == old(curDataFileName)
      ensures validationFileName != "" ==>
        opens == old(opens) + 1 && dataFile == OpenAttempt(old(dataFile), files, pathName + validationFileName)
        && err == if pathName + validationFileName in files then Pass
                  else Fail(OpenFailed(pathName + validationFileName))
    {
      if validationFileName == "" {
        return Fail(NoValidationFileName);
      }
      err := OpenDataFile(validationFileName);
    }

    method OpenTestDataFile() returns (err: Outcome)
      requires Valid()
      modifies this`dataFile, this`curDataFileName, this`opens
      ensures Valid() && opens == old(opens) + 1
      ensures dataFile == OpenAttempt(old(dataFile), files, pathName + testFileName)
      ensures err == if pathName + testFileName in files then Pass
                     else Fail(OpenFailed(pathName + testFileName))
    {
      err := OpenDataFile(testFileName);
    }

    method CloseDataFile()
      requires Valid()
      modifies this`dataFile
      ensures Valid() && dataFile == Closed(old(dataFile))
    {
      dataFile := Closed(dataFile);
    }

    /** Reads the next line and stores its integers: the first outputData into the label
        buffer, the rest into the feature buffer. */
    method ReadNextDataSet() returns (err: Outcome)
      requires Valid()
      modifies this`dataFile, inputDataVector, outputDataVector
      ensures Valid() && dataFile == AfterFetch(old(dataFile))
      ensures match FetchLine(old(dataFile))
        case Failed(e) =>
          err == Fail(e)
          && inputDataVector[..] == old(inputDataVector[..]) && outputDataVector[..] == old(outputDataVector[..])
        case Got(toks) =>
          var ints := ScanTokens(toks, outputData + inputData).ints;
          err == RecordStatus(toks, outputData + inputData)
          && outputDataVector[..] == Overlay(old(outputDataVector[..]), ints, 0)
          && inputDataVector[..] == Overlay(old(inputDataVector[..]), ints, outputData)
      ensures !HasLine(old(dataFile)) ==> err == Fail(End(old(dataFile)))
      ensures HasLine(old(dataFile)) ==>
        var line := old(dataFile).lines[old(dataFile).cursor];
        err == ReadOutcome(line, outputData + inputData)
        && (err == Pass && 1 <= outputData ==> outputDataVector[0] == LabelOf(line, outputData + inputData))
        && (err == Pass ==> inputDataVector[..] == FeaturesOf(line, outputData, inputData))
    {
      var fetched := FetchLine(dataFile);
      dataFile := AfterFetch(dataFile);
      if fetched.Failed? {
        return Fail(fetched.error);
      }
      ghost var features := inputDataVector[..];
      err := StoreTokens(fetched.tokens);
      if err == Pass {
        OverlayFull(features, ScanTokens(fetched.tokens, outputData + inputData).ints, outputData);
      }
    }

    /** The token loop of ReadNextDataSet over the tokens of one line. */
    method StoreTokens(toks: seq<Token>) returns (err: Outcome)
      requires Valid()
      modifies inputDataVector, outputDataVector
      ensures var ints := ScanTokens(toks, outputData + inputData).ints;
        err == RecordStatus(toks, outputData + inputData)
        && outputDataVector[..] == Overlay(old(outputDataVector[..]), ints, 0)
        && inputDataVector[..] == Overlay(old(inputDataVector[..]), ints, outputData)
    {
      ghost var capacity := outputData + inputData;
      ghost var labels0, features0 := outputDataVector[..], inputDataVector[..];
      ghost var ints: seq<nat> := [];
      var idx := 0;
      var i := 0;
      while i < |toks|
        invariant 0 <= i <= |toks|
        invariant ScanTokens(toks[..i], capacity) == Scan(ints, Pass)
        invariant idx == |ints|
        invariant outputDataVector[..] == Overlay(labels0, ints, 0)
        invariant inputDataVector[..] == Overlay(features0, ints, outputData)
      {
        ScanStep(toks, i, capacity);
        match toks[i] {
          case Int(n) =>
            if idx < outputData {
              OverlayExtend(labels0, ints, 0, n);
              OverlayExtend(features0, ints, outputData, n);
              ghost var before := outputDataVector[..];
              outputDataVector[idx] := n;
              assert outputDataVector[..] == before[idx := n];
              idx := idx + 1;
            } else if idx - outputData < inputData {
              OverlayExtend(labels0, ints, 0, n);
              OverlayExtend(features0, ints, outputData, n);
              ghost var before := inputDataVector[..];
              inputDataVector[idx - outputData] := n;
              assert inputDataVector[..] == before[idx - outputData := n];
              idx := idx + 1;
            } else {
              FailureSticks(toks, i + 1, capacity);
              return Fail(IndexOutOfRange);
            }
            ints := ints + [n];
          case Float =>
            FailureSticks(toks, i + 1, capacity);
            return Fail(FloatToken);
          case Other =>
            FailureSticks(toks, i + 1, capacity);
            return Fail(NotAnInt);
          case Punct(_) =>
        }
        i := i + 1;
      }
      assert toks[..i] == toks;
      if idx < outputData + inputData {
        return Fail(MoreDataExpected(idx, outputData + inputData));
      }
      return Pass;
    }

    /** Writes the scaled features into the first inputData input nodes. */
    method InputData2InputNodes(inputNodesVector: array<real>)
      requires Valid() && inputData <= inputNodesVector.Length
      modifies inputNodesVector
      ensures inputNodesVector[..inputData] == Scaled(inputDataVector[..])
      ensures inputNodesVector[inputData..] == old(inputNodesVector[inputData..])
    {
      for idx := 0 to inputDataVector.Length
        invariant forall k :: 0 <= k < idx ==> inputNodesVector[k] == Scale(inputDataVector[k])
        invariant forall k :: idx <= k < inputNodesVector.Length ==> inputNodesVector[k] == old(inputNodesVector[k])
      {
        inputNodesVector[idx] := Scale(inputDataVector[idx]);
      }
      assert inputNodesVector[inputData..] == old(inputNodesVector[inputData..]);
    }

    /** Fills the target nodes with 0.01 and puts 0.99 at the label; a label outside the vector
        is the index panic, after the fill. */
    method OutputData2TargetNodes(targetNodesVector: array<real>) returns (err: Outcome)
      requires Valid() && 1 <= outputData
      modifies targetNodesVector
      ensures targetNodesVector[..] == Targets(targetNodesVector.Length, outputDataVector[0])
      ensures err == if 0 <= outputDataVector[0] < targetNodesVector.Length then Pass else Fail(IndexOutOfRange)
    {
      for idx := 0 to targetNodesVector.Length
        invariant forall k :: 0 <= k < idx ==> targetNodesVector[k] == 0.01
      {
        targetNodesVector[idx] := 0.01;
      }
      var hot := outputDataVector[0];
      if !(0 <= hot < targetNodesVector.Length) {
        return Fail(IndexOutOfRange);
      }
      targetNodesVector[hot] := 0.99;
      return Pass;
    }

    /** Stores the decoded class of an output vector as the label. */
    method OutputNotes2OutputData(outputNodesVector: array<real>)
      requires Valid() && 1 <= outputData
      modifies outputDataVector
      ensures outputDataVector[..] == old(outputDataVector[..])[0 := Argmax(outputNodesVector[..])]
    {
      var maxIdx := MaxIndex(outputNodesVector);
      outputDataVector[0] := maxIdx;
    }

    /** Whether an output vector decodes to the current label. */
    method AreOutputNotesOK(outputNodesVector: array<real>) returns (ok: bool)
      requires Valid() && 1 <= outputData
      ensures ok <==> outputDataVector[0] == Argmax(outputNodesVector[..])
    {
      var maxIdx := MaxIndex(outputNodesVector);
      ok := outputDataVector[0] == maxIdx;
    }
  }
}
