# GoNN: an online-backpropagation trainer and its MNIST record reader, in Dafny

GoNN trains a three-layer (input, hidden, output) feed-forward network one record at a time
and then measures its hit rate on a test file. Two pieces do the work:

* the dataset adapter `MNIST_DataSet` (package `DataSetPort`), which opens record files, reads
  one comma-separated line of integers at a time into a label buffer and a feature buffer, and
  converts between those buffers and the network's node vectors;
* the network `NeuralNetwork` with its drivers `Train`, `Test` and `trainAndTest`, which keep
  the activation vectors and the two weight matrices in place and update the weights after
  every training record.

This project models both as imperative Dafny: `DataSetPort.MnistDataSet` and
`GoNN.NeuralNetwork` are classes whose methods update their fields, their `array<int>`
buffers, their `array<real>` vectors and their `array2<real>` weight matrices in place, with
the same loops as the Go code. Every method is proved against specification functions over
sequences:

* the token loop of `ReadNextDataSet` against `ScanTokens`, a left-to-right fold over the
  tokens of a line, and the buffers it leaves against `Overlay`;
* the forward pass against `Sums` (the weighted sums `Dot` of every row of a matrix) and
  `Activations`, the backward pass against `Differences` and the sums over the columns of the
  hidden-output matrix, and the weight update against `Adjusted`, which moves every weight by
  exactly its `Delta`;
* the driver loops against `Passing` (how many leading lines of a file a loop gets through),
  `StreamOutcome` (the error a read loop ends with) and `TrainRun` (the open calls, the records
  trained on and the error of a whole training run);
* the decoding of an output vector against `Argmax`, a left-to-right scan with strict `>` from
  a floor of 0.0.

A file is a sequence of `Line`s, each the tokens the Go text scanner produces for it
(`Int(n)`, `Float`, `Other`, `Punct(c)`), or an `Unscannable` line that the line reader rejects.
The file system is a fixed map from path to lines that the adapter is given when it is built.
An open file is a `Handle` with a cursor and an open flag. The adapter counts its open calls in
the ghost field `opens`. Go errors are `Outcome` values: `Pass` for nil, or `Fail(e)` with one
`Error` constructor per error the code can return.

The code's index-out-of-range panics that depend on the data are modelled as the error
`IndexOutOfRange`, which ends the run like any other error. There are two of them: a line with
more integers than the buffers hold (`read_MNIST_data.go:114`), and a label outside the
target vector (`read_MNIST_data.go:148`). The panics that depend only on the configuration are
preconditions instead: at least one label slot, and no more features than input nodes.

The weights are stated as values. `Weights` holds the two matrices by rows, and `Trained` is
one online step on a record: forward pass, errors, then the update of both matrices. `TrainedOn`
is that step applied to the records of a file in order. `Hit` says a test record decodes to its
label, `Hits` counts those records, and `TestAccuracy` is the result `Test` reports for them.
While it trains, the network keeps a ghost value `weights` equal to the entries of its two
matrices (`Mirrors`). `Train` and its loops state their effect on the matrices through it:
the weights after `Train` are `TrainedOn` the records of the run. `Test` states its counts and
result through `Hits` and `TestAccuracy`.

The training file is reopened after every end-of-file, including the one that ends the last
epoch (`GoNN.go:279-281`). So a successful run of E epochs opens the file E + 1 times, not E.
`TrainRunSucceeds` states the E + 1.

## Model

| member | source | states |
|---|---|---|
| DataSetPort.ScanTokens | dataset_port/read_MNIST_data.go:102-126 | the token loop never stores more integers than the label and feature buffers hold together; the next one is the index panic |
| DataSetPort.OverlayExtend | dataset_port/read_MNIST_data.go:110-116 | storing integer number idx writes slot idx of the label buffer while idx < outputData, else slot idx - outputData of the feature buffer, and no other slot |
| DataSetPort.FailureSticks | dataset_port/read_MNIST_data.go:117-123 | once the loop has returned an error, the tokens after it change nothing |
| DataSetPort.ScanOfNumbers | dataset_port/read_MNIST_data.go:102-116 | on a line of integers and punctuation the loop stores exactly its integers, in order; with more than fit it stops at the first one too many with the index panic |
| DataSetPort.NumbersRecordStatus | dataset_port/read_MNIST_data.go:114-129 | such a line is a record exactly when it holds outputData + inputData integers; fewer gives "more data expected" with the counts, more gives the index panic |
| DataSetPort.PunctIgnored | dataset_port/read_MNIST_data.go:102-105 | a punctuation token anywhere in a line changes neither the integers stored nor the outcome |
| DataSetPort.BadTokenRejected | dataset_port/read_MNIST_data.go:117-123 | a float or non-number token ends the line with its own error whatever follows it, and the integers stored before it stay stored |
| DataSetPort.ReadRenderedRecord | dataset_port/read_MNIST_data.go:102-135 | round trip: a line of the labels then the features, comma separated, reads back without error and leaves exactly those labels and features in the two buffers |
| DataSetPort.ScaleRange | dataset_port/read_MNIST_data.go:138-142 | the input scaling maps a pixel value 0..255 into [0.01, 1.0], 0 to 0.01 and 255 to 1.0 |
| DataSetPort.ScanPeakFacts | dataset_port/read_MNIST_data.go:152-158 | the running maximum ends at (0.0, 0) when no entry exceeds 0.0, else at the first index of the greatest entry and that entry |
| DataSetPort.ArgmaxMeaning | dataset_port/read_MNIST_data.go:151-174 | both directions: an output vector decodes to k exactly when k is the first index of its maximum and that maximum exceeds 0.0, or no entry exceeds 0.0 and k is 0 |
| DataSetPort.TargetsDecode | dataset_port/read_MNIST_data.go:144-174 | the target vector of an in-range label decodes back to that label |
| DataSetPort.DecodingExamples | dataset_port/read_MNIST_data.go:144-158 | ties go to the first index ([0.5, 0.5, 0.1] decodes to 0); the target vector of label 3 among 10 classes is 0.99 at index 3 and 0.01 elsewhere |
| DataSetPort.MaxIndex | dataset_port/read_MNIST_data.go:152-158 | the max/maxIdx loop returns Argmax of the vector |
| DataSetPort.MnistDataSet.InitDataSet | dataset_port/read_MNIST_data.go:40-49 | takes over every configuration field; the feature buffer has inputData zero slots and the label buffer outputData; no file is open |
| DataSetPort.MnistDataSet.OpenDataFile | dataset_port/read_MNIST_data.go:51-60 | one open call; a file that exists becomes the current file at its first line and its name the current name; a missing one returns the open error and keeps the previous handle and name |
| DataSetPort.MnistDataSet.OpenTrainingDataFile | dataset_port/read_MNIST_data.go:62-64 | opens path + training file name, with the outcome and handle of OpenDataFile |
| DataSetPort.MnistDataSet.OpenValidationDataFile | dataset_port/read_MNIST_data.go:66-71 | with an empty validation file name it returns an error and opens nothing (no open call, handle and name unchanged); otherwise it opens path + validation file name |
| DataSetPort.MnistDataSet.OpenTestDataFile | dataset_port/read_MNIST_data.go:73-75 | opens path + test file name, with the outcome and handle of OpenDataFile |
| DataSetPort.MnistDataSet.CloseDataFile | dataset_port/read_MNIST_data.go:77-79 | marks the current file closed, and is harmless when no file was ever opened |
| DataSetPort.MnistDataSet.ReadNextDataSet | dataset_port/read_MNIST_data.go:81-136 | a failed line read (never opened, closed, end of file, unreadable line) returns its error, closes the file and leaves both buffers; otherwise the error is that of the token loop and the buffers hold the integers it stored over their old contents; the label slot 0 of a good record is the line's first integer |
| DataSetPort.MnistDataSet.StoreTokens | dataset_port/read_MNIST_data.go:92-135 | the token loop with its idx counter returns the ScanTokens outcome and writes exactly the Overlay of the stored integers into the two buffers |
| DataSetPort.MnistDataSet.InputData2InputNodes | dataset_port/read_MNIST_data.go:138-142 | input node k becomes the scaled feature k for every feature; the input nodes past the features keep their values |
| DataSetPort.MnistDataSet.OutputData2TargetNodes | dataset_port/read_MNIST_data.go:144-149 | every target node becomes 0.01 and the one at the label 0.99; a label outside the vector is the index panic, after the fill |
| DataSetPort.MnistDataSet.OutputNotes2OutputData | dataset_port/read_MNIST_data.go:151-160 | label slot 0 becomes the decoded class of the output vector; the other label slots keep their values |
| DataSetPort.MnistDataSet.AreOutputNotesOK | dataset_port/read_MNIST_data.go:162-174 | true exactly when label slot 0 equals the decoded class of the output vector |
| GoNN.Accuracy | GoNN.go:335-340 | the hit rate lies in [0, 1]; with hits it is hits / (hits + misses), with no hit 0, and with hits and no miss 1 |
| GoNN.TrainedOnAppend | GoNN.go:202-278 | training on the records a and then b is training on a + b, so the epochs of a run compose into one sequence of records |
| GoNN.TrainedUpToPrefix | GoNN.go:203-278 | the weights after the first n records of a file, counted one loop turn at a time, are TrainedOn the prefix of n lines |
| GoNN.HitsAll | GoNN.go:293-331 | both directions: every line of a file decodes to its label exactly when the count of hits is the number of lines |
| GoNN.HitsNone | GoNN.go:293-331 | a file none of whose lines decodes to its label counts no hit |
| GoNN.HitsUpToPrefix | GoNN.go:293-331 | the hits among the first n lines, counted one loop turn at a time, are Hits of the prefix of n lines |
| GoNN.HitsUpToAll | GoNN.go:293-331 | counted over all the lines, that count is Hits of the whole file |
| GoNN.TestAccuracy | GoNN.go:332-341 | the result of a test pass over a file lies in [0, 1] |
| GoNN.TestAccuracyBounds | GoNN.go:332-341 | a non-empty file whose every line decodes to its label gives 1.0; a file with no such line gives 0.0 |
| GoNN.TestAccuracyOf | GoNN.go:332-341 | counts of hits and misses that match Hits and add up to the lines give the accuracy of the file |
| GoNN.PassingPrefix | GoNN.go:203-278 | a read loop gets through the leading lines that pass, and the line after them, if any, does not pass |
| GoNN.PassingMeaning | GoNN.go:203-278 | both directions: a loop gets through exactly k lines when the first k pass and line k, if any, does not |
| GoNN.TrainRunOf | GoNN.go:196-284 | where the epoch loop stops (a full set of epochs over a file whose lines all pass, or an aborted first epoch or open) the open calls, records and error are those of TrainRun |
| GoNN.TrainRunSucceeds | GoNN.go:196-284 | a successful training run of E > 0 epochs opens the file E + 1 times, trains on every line in every epoch, and every line of the file passes; with E <= 0 it opens the file once and trains on nothing |
| GoNN.TrainRunAborts | GoNN.go:196-284 | a failed training run opens the file once; a missing file returns the open error with no record trained; otherwise it stops in the first epoch at the first failing line, after training on every line before it, and returns that line's error |
| GoNN.DriverOutcomeNotEnd | GoNN.go:203-281 | a line that is there never ends a driver loop with end-of-file, so Train reopens the file only at its end |
| GoNN.OpenOverClosed | dataset_port/read_MNIST_data.go:51-60 | opening the test file over the closed training file delivers the file's lines when it exists; otherwise the old handle stays, closed, and the first read reports the closed file |
| GoNN.ReadOutcomeNotEnd | dataset_port/read_MNIST_data.go:85-135 | reading a line that is there never returns end-of-file, so the drivers see end-of-file only at the end of the file |
| GoNN.RowDot | GoNN.go:213-218 | the running sum over a row of the weights times the previous layer is Dot of that row and vector |
| GoNN.ColumnDot | GoNN.go:248-254 | the running sum over a column of the hidden-output weights times the output errors is Dot of that column and vector |
| GoNN.ForwardLayer | GoNN.go:213-234 | every node of a layer gets the weighted sum of the previous layer along its row of the matrix, and its activation sig of that sum |
| GoNN.RandomWeights | GoNN.go:170-192 | a fresh matrix of the given shape filled row by row with the draws of the random source, each shifted by -0.5 |
| GoNN.AdjustWeights | GoNN.go:257-277 | the update loop moves every weight m[r, c] by exactly learningRate * error[r] * act[r] * (1 - act[r]) * x[c] and nothing else |
| GoNN.AdjustedByZeroErrors | GoNN.go:257-277 | with all errors zero the update moves no weight |
| GoNN.PerfectRecordKeepsWeights | GoNN.go:243-277 | a record whose target the network already puts out exactly gives zero output errors and zero hidden errors, and leaves both weight matrices unchanged |
| GoNN.NeuralNetwork.InitNeuralNetwork | GoNN.go:139-194 | every vector has its configured length, wih is hiddenNodes x inputNodes and who outputNodes x hiddenNodes, all fresh and distinct; wih takes the first hiddenNodes * inputNodes draws row by row and who the following ones, each minus 0.5 |
| GoNN.NeuralNetwork.FeedForward | GoNN.go:213-234 | the hidden net inputs are the weighted sums of the inputs along the rows of wih, the hidden outputs their sig; likewise the output layer over the hidden outputs and who |
| GoNN.NeuralNetwork.ComputeErrors | GoNN.go:243-255 | the output errors are target minus output; the hidden errors are the output errors weighted along the columns of who as it is before the update |
| GoNN.NeuralNetwork.UpdateWeights | GoNN.go:257-277 | who and then wih move by exactly their deltas, wih with the hidden errors and activations of the same record; the ghost weights follow the matrices |
| GoNN.NeuralNetwork.TrainOnRecord | GoNN.go:205-277 | one training record in order: input nodes, forward pass with the weights before the update, target vector, errors from the old who, then both updates, so the weights move one Trained step on the record's label and input nodes; a label out of range is the index panic and leaves the weights unchanged |
| GoNN.NeuralNetwork.TrainNext | GoNN.go:203-278 | one turn of the inner loop after k records: the error is the outcome of line k, or end-of-file past the last line; a line that passes moves the weights one Trained step on it and the cursor one line on; any other outcome leaves the weights alone |
| GoNN.NeuralNetwork.TrainEpoch | GoNN.go:203-278 | one epoch over a freshly opened file trains on exactly the passing prefix of its lines, in order (the weights are TrainedUpTo that prefix), and returns the error of the first failing line, or end-of-file with the file closed when every line passed |
| GoNN.NeuralNetwork.Epoch | GoNN.go:202-282 | one turn of the epoch loop: after an epoch over the whole file the file is open again at its first line, one open call later, with every line passing and the weights trained on one more copy of the file; otherwise the run aborts in its first epoch as TrainAborted says |
| GoNN.NeuralNetwork.Epochs | GoNN.go:198-283 | the epoch loop from the outcome of the first open: on nil it ran every epoch, opened the file once per epoch and trained on that many copies of it; on an error it stopped as TrainAborted says, with no further open; the weights are TrainedOn the records done |
| GoNN.NeuralNetwork.Train | GoNN.go:196-284 | the error, the number of records trained on and the number of open calls are those of TrainRun, and the weights end TrainedOn the records of the run from the weights before it; the file is closed on return |
| GoNN.NeuralNetwork.TestOnRecord | GoNN.go:295-330 | one test record: input nodes, the forward pass, and the verdict that the output decodes to the label; it modifies neither weight matrix |
| GoNN.NeuralNetwork.TestNext | GoNN.go:293-331 | one turn of the read loop of Test after k records: the error is the read outcome of pending line k, or the end error of the handle past the last one; a record that reads answers whether it is a Hit under the weights |
| GoNN.NeuralNetwork.TestRecords | GoNN.go:293-331 | the read loop of Test counts one hit or miss per passing line of what the handle delivers, the hits being exactly the lines that are a Hit under the weights, and returns the error of the first failing line or the end error of the handle |
| GoNN.NeuralNetwork.Test | GoNN.go:286-343 | the open error is dropped and the error is that of the reads; at end-of-file it is nil, the hits are Hits of the file under the weights, hits + misses the number of lines and the result their Accuracy, 1.0 when every line is a hit; any other error gives 0.0; the file is closed, and wih and who do not change |
| GoNN.TrainAndTest | GoNN.go:119-137 | a failed training run returns its error and 0.0 without testing; otherwise the error is that of the test reads, and on success the result is the TestAccuracy on the test file of the initial weights TrainedOn the records of the training run; the result lies in [0, 1], 0.0 on error |

## Left out

- Line reading and lexing: `fmt.Fscanln` and `text/scanner` are library code. A line is given as the token kinds the scanner reports, and a line that `Fscanln` rejects is `Unscannable`. Which lines the library rejects, hex and other literal forms, comments, and `fmt.Sscan` on an integer too large for `int` are left out. A minus sign is a token of its own, so `-5` stores 5, as in the code.
- Files: the file system is a fixed map from path to lines that does not change while a run lasts. `os.Open` and `Close` are modelled only by their effect on the handle. Error texts are `Error` constructors, not strings. `curDataFileName` is kept, but only the scanner's messages use it.
- Floating point: node values and weights are `real`, so float64 rounding, `NaN` and overflow are left out. `sig` is an arbitrary function `real -> real` fixed when the network is built. Nothing is claimed about its range, about learning or about convergence.
- GoNN.NeuralNetwork.InitNeuralNetwork: the time-seeded `rand.Float64` stream is a parameter `rand`, with `rand(k)` the k-th draw. Its values, and the seeding from the clock, are left out.
- GoNN.NeuralNetwork.Train: the index panic for a label outside the target vector is the error `IndexOutOfRange`, which ends the run and is returned. The program itself would crash there.
- DataSetPort.MnistDataSet.ReadNextDataSet: the index panic for a line with more integers than the buffers hold is the error `IndexOutOfRange` in the same way.
- GoNN.TrainAndTest: requires at least one label slot and no more features than input nodes. Without them every record panics in `OutputData2TargetNodes` or `InputData2InputNodes`, whatever the data.
- GoNN.NeuralNetwork.Test: also returns the hit and miss counts, as ghost out-parameters, so that its contract can state the result. The Go method returns only the result and the error.
- `DataSetInterface` (GoNN.go:62-74): the drivers take the concrete `MnistDataSet`, the only implementation of the interface. `PrintOutputData` is left out with the rest of the console output.
- `main` (GoNN.go:82-117): profiling, timing and printing are I/O. The configuration literals it uses are inputs to `TrainAndTest`.
- The loops of `Train` and `Test` and their bodies are separate methods here: `Epochs`, `Epoch`, `TrainEpoch`, `TrainNext`, `TrainOnRecord`, `TestRecords`, `TestNext`, `TestOnRecord`, `FeedForward`, `ComputeErrors`, `UpdateWeights`, and the loop pieces `ForwardLayer`, `RowDot`, `ColumnDot`, `AdjustWeights`, `RandomWeights`, `MaxIndex` and `StoreTokens`. They run the same loops in the same order on the same arrays.
- Weight matrices are two-dimensional arrays rather than slices of row slices, so a row cannot alias another. The Go code never makes rows alias.
- Whether one epoch on two records changes every weight depends on the values of `sig` and the random weights, which are left abstract, so it is not stated.
