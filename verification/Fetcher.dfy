/** fetcher.py: reading the requested files over one SFTP channel, with one result per file. */
module Fetcher {
  import opened Wrappers

  type Bytes = seq<bv8>

  const MAX_FETCH_BYTES: nat := 1048576

  datatype FileSpec = FileSpec(name: string, path: string, required: bool)

  /** What the server answers for one file; every expected stat, open or read error is its error code. */
  datatype FileAnswer =
    | Fails(code: string)
    | Readable(statSize: Option<nat>, content: Bytes)

  /** The SFTP channel: it fails to start or to open, or serves the files and may then fail to close. */
  datatype Channel =
    | StartFails(code: string)
    | EnterFails(code: string)
    | Serves(exitError: Option<string>)

  datatype FetchedFile = FetchedFile(
    content: Option<Bytes>,
    size: Option<nat>,
    sha256: Option<string>,
    error: Option<string>)

  /** The model validator of FetchedFile: either content with size and digest, or an error with neither. */
  predicate IsValid(f: FetchedFile) {
    && (f.content.Some? <==> f.error.None?)
    && (f.content.Some? ==> f.size.Some? && f.sha256.Some?)
    && (f.error.Some? ==> f.size.None? && f.sha256.None?)
  }

  function Failed(code: string): FetchedFile {
    FetchedFile(None, None, None, Some(code))
  }

  predicate HasDistinctNames(specs: seq<FileSpec>) {
    forall i, j | 0 <= i < j < |specs| :: specs[i].name != specs[j].name
  }

  /** The file can be delivered whole: the channel works and nothing exceeds the cap. */
  predicate IsDeliverable(channel: Channel, answer: FileAnswer) {
    && channel.Serves? && answer.Readable?
    && (answer.statSize.Some? ==> answer.statSize.value <= MAX_FETCH_BYTES)
    && |answer.content| <= MAX_FETCH_BYTES
  }

  function ErrorCode(channel: Channel, answer: FileAnswer): string
    requires !IsDeliverable(channel, answer)
  {
    match channel
    case StartFails(code) => code
    case EnterFails(code) => code
    case Serves(_) => if answer.Fails? then answer.code else "EFBIG"
  }

  /** The one right result for a file: all of its content with size and digest, or the error. */
  function ResultOf(channel: Channel, answer: FileAnswer, digest: Bytes -> string): (f: FetchedFile)
    ensures IsValid(f)
    ensures f.content.Some? <==>
      && channel.Serves? && answer.Readable? && |answer.content| <= 1048576
      && (answer.statSize.Some? ==> answer.statSize.value <= 1048576)
    ensures f.content.Some? ==>
      f.content.value == answer.content && f.size == Some(|answer.content|) && f.sha256 == Some(digest(answer.content))
    ensures channel.StartFails? || channel.EnterFails? ==> f.error == Some(channel.code)
    ensures channel.Serves? && answer.Fails? ==> f.error == Some(answer.code)
    ensures channel.Serves? && answer.Readable? && f.content.None? ==> f.error == Some("EFBIG")
  {
    if IsDeliverable(channel, answer) then
      FetchedFile(Some(answer.content), Some(|answer.content|), Some(digest(answer.content)), None)
    else Failed(ErrorCode(channel, answer))
  }

  function Results(specs: seq<FileSpec>, channel: Channel, answers: seq<FileAnswer>, digest: Bytes -> string)
    : map<string, FetchedFile>
    requires |answers| == |specs|
  {
    if specs == [] then map[]
    else
      var k := |specs| - 1;
      Results(specs[..k], channel, answers[..k], digest)[specs[k].name := ResultOf(channel, answers[k], digest)]
  }

  lemma {:induction false} ResultsAreExact(
      specs: seq<FileSpec>, channel: Channel, answers: seq<FileAnswer>, digest: Bytes -> string, i: nat)
    requires |answers| == |specs| && HasDistinctNames(specs) && i < |specs|
    ensures Results(specs, channel, answers, digest).Keys == Names(specs)
    ensures specs[i].name in Results(specs, channel, answers, digest)
    ensures Results(specs, channel, answers, digest)[specs[i].name] == ResultOf(channel, answers[i], digest)
  {
    var k := |specs| - 1;
    if i < k {
      ResultsAreExact(specs[..k], channel, answers[..k], digest, i);
    } else if k > 0 {
      ResultsAreExact(specs[..k], channel, answers[..k], digest, 0);
    }
  }

  /** The required files that came back with an error, in schema order. */
  function RequiredFailures(specs: seq<FileSpec>, results: map<string, FetchedFile>): seq<string> {
    if specs == [] then []
    else
      var last := specs[|specs| - 1];
      RequiredFailures(specs[..|specs| - 1], results)
      + if last.required && last.name in results && results[last.name].error.Some? then [last.name] else []
  }

  /** Extending the results by another name does not disturb the accounting so far. */
  lemma {:induction false} FailuresIgnoreOthers(
      specs: seq<FileSpec>, results: map<string, FetchedFile>, name: string, f: FetchedFile)
    requires forall i | 0 <= i < |specs| :: specs[i].name != name
    ensures RequiredFailures(specs, results[name := f]) == RequiredFailures(specs, results)
  {
    if specs != [] {
      FailuresIgnoreOthers(specs[..|specs| - 1], results, name, f);
    }
  }

  lemma {:induction false} RequiredFailuresAreExact(
      specs: seq<FileSpec>, results: map<string, FetchedFile>, name: string)
    ensures name in RequiredFailures(specs, results) <==>
      exists i :: 0 <= i < |specs| && specs[i].name == name && specs[i].required
                  && name in results && results[name].error.Some?
  {
    if specs != [] {
      var front := specs[..|specs| - 1];
      RequiredFailuresAreExact(front, results, name);
      assert forall i | 0 <= i < |front| :: front[i] == specs[i];
    }
  }

  /** They are listed in schema order. */
  lemma {:induction false} FailuresAreInOrder(specs: seq<FileSpec>, results: map<string, FetchedFile>)
    returns (at: seq<nat>)
    ensures IsAscending(at) && |at| == |RequiredFailures(specs, results)|
    ensures forall k | 0 <= k < |at| :: at[k] < |specs| && RequiredFailures(specs, results)[k] == specs[at[k]].name
  {
    at := [];
    if specs != [] {
      var n := |specs| - 1;
      at := FailuresAreInOrder(specs[..n], results);
      if |RequiredFailures(specs, results)| > |at| {
        at := at + [n];
      }
    }
  }

  /** One file over a working channel: stat, open, read one byte more than the cap, and classify. */
  method FetchOne(answer: FileAnswer, digest: Bytes -> string) returns (f: FetchedFile)
    ensures f == ResultOf(Serves(None), answer, digest)
  {
    match answer
    case Fails(code) => f := Failed(code);
    case Readable(statSize, content) =>
      if statSize.Some? && statSize.value > MAX_FETCH_BYTES {
        return Failed("EFBIG");
      }
      var raw := if |content| > MAX_FETCH_BYTES + 1 then content[..MAX_FETCH_BYTES + 1] else content;
      if |raw| > MAX_FETCH_BYTES {
        return Failed("EFBIG");
      }
      f := FetchedFile(Some(raw), Some(|raw|), Some(digest(raw)), None);
  }

  function Names(specs: seq<FileSpec>): set<string> {
    if specs == [] then {} else Names(specs[..|specs| - 1]) + {specs[|specs| - 1].name}
  }

  lemma {:induction false} NamesAreExact(specs: seq<FileSpec>, name: string)
    ensures name in Names(specs) <==> exists i :: 0 <= i < |specs| && specs[i].name == name
  {
    if specs != [] {
      var front := specs[..|specs| - 1];
      NamesAreExact(front, name);
      assert forall i | 0 <= i < |front| :: front[i] == specs[i];
    }
  }

  /** The results once every file without one has the channel's error. */
  function Filled(specs: seq<FileSpec>, before: map<string, FetchedFile>, code: string): map<string, FetchedFile> {
    if specs == [] then before
    else
      var results := Filled(specs[..|specs| - 1], before, code);
      var name := specs[|specs| - 1].name;
      if name in results then results else results[name := Failed(code)]
  }

  /** The required files among those that had no result. */
  function NewFailures(specs: seq<FileSpec>, before: map<string, FetchedFile>): seq<string> {
    if specs == [] then []
    else
      var last := specs[|specs| - 1];
      NewFailures(specs[..|specs| - 1], before) + if last.required && last.name !in before then [last.name] else []
  }

  lemma {:induction false} FilledKeys(specs: seq<FileSpec>, before: map<string, FetchedFile>, code: string)
    ensures Filled(specs, before, code).Keys == before.Keys + Names(specs)
  {
    if specs != [] {
      FilledKeys(specs[..|specs| - 1], before, code);
    }
  }

  /** Gives every file that has no result yet the channel's error. */
  method FailMissing(
      specs: seq<FileSpec>, before: map<string, FetchedFile>, reported: seq<string>, code: string)
    returns (results: map<string, FetchedFile>, failures: seq<string>)
    requires HasDistinctNames(specs)
    ensures results == Filled(specs, before, code) && failures == reported + NewFailures(specs, before)
  {
    results, failures := before, reported;
    for i := 0 to |specs|
      invariant results == Filled(specs[..i], before, code)
      invariant failures == reported + NewFailures(specs[..i], before)
    {
      var name := specs[i].name;
      NamesAreExact(specs[..i], name);
      FilledKeys(specs[..i], before, code);
      assert specs[..i + 1][..i] == specs[..i];
      if name !in results {
        results := results[name := Failed(code)];
        if specs[i].required {
          failures := failures + [name];
        }
      }
    }
    assert specs[..|specs|] == specs;
  }

  /** Where every file has its result, nothing is missing. */
  lemma {:induction false} NothingIsMissing(specs: seq<FileSpec>, before: map<string, FetchedFile>, code: string)
    requires Names(specs) <= before.Keys
    ensures Filled(specs, before, code) == before && NewFailures(specs, before) == []
  {
    if specs != [] {
      NothingIsMissing(specs[..|specs| - 1], before, code);
    }
  }

  /** Where no file has one, all get the error of the channel that did not come up. */
  lemma {:induction false} EverythingIsMissing(
      specs: seq<FileSpec>, channel: Channel, code: string, answers: seq<FileAnswer>, digest: Bytes -> string)
    requires HasDistinctNames(specs) && |answers| == |specs|
    requires channel == StartFails(code) || channel == EnterFails(code)
    ensures Filled(specs, map[], code) == Results(specs, channel, answers, digest)
    ensures NewFailures(specs, map[]) == RequiredFailures(specs, Results(specs, channel, answers, digest))
  {
    if specs != [] {
      var k := |specs| - 1;
      EverythingIsMissing(specs[..k], channel, code, answers[..k], digest);
      FilledKeys(specs[..k], map[], code);
      NamesAreExact(specs[..k], specs[k].name);
      FailuresIgnoreOthers(specs[..k], Filled(specs[..k], map[], code), specs[k].name, Failed(code));
    }
  }

  /** A channel that fails to close changes nothing. */
  lemma {:induction false} ExitChangesNothing(
      specs: seq<FileSpec>, channel: Channel, answers: seq<FileAnswer>, digest: Bytes -> string)
    requires |answers| == |specs| && channel.Serves?
    ensures Results(specs, channel, answers, digest) == Results(specs, Serves(None), answers, digest)
  {
    if specs != [] {
      ExitChangesNothing(specs[..|specs| - 1], channel, answers[..|specs| - 1], digest);
    }
  }

  /** Serves every file in turn, recording each failure as that file's result. */
  method FetchEach(specs: seq<FileSpec>, answers: seq<FileAnswer>, digest: Bytes -> string)
    returns (results: map<string, FetchedFile>, failures: seq<string>)
    requires |answers| == |specs| && HasDistinctNames(specs)
    ensures results.Keys == Names(specs) && results == Results(specs, Serves(None), answers, digest)
    ensures failures == RequiredFailures(specs, results)
  {
    results, failures := map[], [];
    for i := 0 to |specs|
      invariant results.Keys == Names(specs[..i])
      invariant results == Results(specs[..i], Serves(None), answers[..i], digest)
      invariant failures == RequiredFailures(specs[..i], results)
    {
      var f := FetchOne(answers[i], digest);
      FailuresIgnoreOthers(specs[..i], results, specs[i].name, f);
      assert specs[..i + 1][..i] == specs[..i] && answers[..i + 1][..i] == answers[..i];
      results := results[specs[i].name := f];
      if f.error.Some? && specs[i].required {
        failures := failures + [specs[i].name];
      }
    }
    assert specs[..|specs|] == specs && answers[..|specs|] == answers;
  }

  /**
   Every requested file gets exactly one result and it is the right one; the failures are exactly
   the required files whose result is an error, in schema order; a channel that fails to close
   changes nothing.
   */
  method FetchFiles(specs: seq<FileSpec>, channel: Channel, answers: seq<FileAnswer>, digest: Bytes -> string)
    returns (results: map<string, FetchedFile>, failures: seq<string>)
    requires |answers| == |specs| && HasDistinctNames(specs)
    ensures results.Keys == Names(specs) && results == Results(specs, channel, answers, digest)
    ensures forall i | 0 <= i < |specs| ::
      specs[i].name in results && results[specs[i].name] == ResultOf(channel, answers[i], digest)
    ensures failures == RequiredFailures(specs, results)
  {
    results, failures := map[], [];
    if specs == [] {
      return;
    }
    match channel {
      case StartFails(code) =>
        results, failures := FailMissing(specs, results, failures, code);
        EverythingIsMissing(specs, channel, code, answers, digest);
      case EnterFails(code) =>
        results, failures := FailMissing(specs, results, failures, code);
        EverythingIsMissing(specs, channel, code, answers, digest);
      case Serves(exitError) =>
        results, failures := FetchEach(specs, answers, digest);
        ExitChangesNothing(specs, channel, answers, digest);
        if exitError.Some? {
          NothingIsMissing(specs, results, exitError.value);
          results, failures := FailMissing(specs, results, failures, exitError.value);
        }
    }
    forall i | 0 <= i < |specs|
      ensures specs[i].name in results && results[specs[i].name] == ResultOf(channel, answers[i], digest)
    {
      ResultsAreExact(specs, channel, answers, digest, i);
    }
    ResultsAreExact(specs, channel, answers, digest, 0);
  }
}
