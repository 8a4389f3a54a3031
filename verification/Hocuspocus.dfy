/** The registry of documents in the shape of the program: a map of documents, a map of loads in
    progress, and the cells of the latter. Each method is one lock-guarded block of `create_document`
    or of unloading, and names the action of `CreateDocumentModel` that it performs. */
module HocuspocusObject {
  import opened Wrappers
  import opened CreateDocumentModel

  class Hocuspocus {
    var documents: map<string, nat>
    var loadingDocuments: map<string, nat>
    var locks: seq<Lock>

    // the callers, and history
    ghost var tasks: seq<Task>
    ghost var loaded: seq<string>
    ghost var epochs: map<string, nat>
    ghost var results: seq<Result>

    ghost function View(): State
      reads this
    {
      State(documents, loadingDocuments, locks, tasks, loaded, epochs, results)
    }

    ghost predicate At(t: nat, name: string, pc: Pc)
      reads this
    {
      t < |tasks| && tasks[t] == Task(name, pc)
    }

    constructor ()
      ensures View() == INIT
    {
      documents, loadingDocuments, locks := map[], map[], [];
      tasks, loaded, epochs, results := [], [], map[], [];
    }

    ghost method Go(t: nat, pc: Pc)
      requires t < |tasks|
      modifies this`tasks
      ensures View() == Goto(old(View()), t, pc)
    {
      tasks := tasks[t := tasks[t].(pc := pc)];
    }

    ghost method Return(t: nat, answer: Answer)
      requires t < |tasks|
      modifies this`tasks, this`results
      ensures View() == Finish(old(View()), t, answer)
    {
      results := results + [Result(tasks[t].name, Epoch(View(), tasks[t].name), answer)];
      Go(t, Finished);
    }

    static method IsBlank(name: string) returns (blank: bool)
      ensures blank <==> Blank(name)
    {
      var i := 0;
      while i < |name|
        invariant i <= |name| && forall j :: 0 <= j < i ==> IsWhitespace(name[j])
      {
        if !IsWhitespace(name[i]) {
          assert name[i] in name;
          return false;
        }
        i := i + 1;
      }
      blank := true;
    }

    /** The first look: an answer, or none if the caller has to look further. */
    method CheckDocuments(ghost t: nat, documentName: string) returns (answer: Option<Answer>)
      requires At(t, documentName, Checking)
      modifies this
      ensures View() == Apply(old(View()), Advance(t, true))
      ensures answer.Some? ==> At(t, documentName, Finished) && results[|results|-1].answer == answer.value
      ensures answer.None? ==> At(t, documentName, Looking)
    {
      hide Blank;
      var blank := IsBlank(documentName);
      if blank {
        answer := Some(Failed);
        Return(t, Failed);
      } else if documentName in documents {
        answer := Some(Ok(documents[documentName]));
        Return(t, answer.value);
      } else {
        answer := None;
        Go(t, Looking);
      }
    }

    method FindLoad(ghost t: nat, documentName: string) returns (lock: Option<nat>)
      requires At(t, documentName, Looking)
      modifies this
      ensures View() == Apply(old(View()), Advance(t, true))
      ensures At(t, documentName, if lock.Some? then AtLock(lock.value) else Inserting)
    {
      if documentName in loadingDocuments {
        lock := Some(loadingDocuments[documentName]);
        Go(t, AtLock(lock.value));
      } else {
        lock := None;
        Go(t, Inserting);
      }
    }

    /** The cell of somebody else's load, found at the first or at the second look. */
    method ReadLock(ghost t: nat, documentName: string, lock: nat) returns (answer: Option<Answer>)
      requires lock < |locks| && (At(t, documentName, AtLock(lock)) || At(t, documentName, AtOther(lock)))
      modifies this
      ensures View() == Apply(old(View()), Advance(t, true))
      ensures answer == locks[lock].answer
    {
      answer := locks[lock].answer;
      if answer.Some? {
        Return(t, answer.value);
      } else {
        Go(t, if tasks[t].pc.AtLock? then Rechecking else RecheckingOther);
      }
    }

    method CheckDocumentsAgain(ghost t: nat, documentName: string) returns (answer: Option<Answer>)
      requires At(t, documentName, Rechecking)
      modifies this
      ensures View() == Apply(old(View()), Advance(t, true))
      ensures answer.None? ==> At(t, documentName, Inserting)
    {
      if documentName in documents {
        answer := Some(Ok(documents[documentName]));
        Return(t, answer.value);
      } else {
        answer := None;
        Go(t, Inserting);
      }
    }

    /** Inserts a lock, unless somebody else has done so by now. */
    method InsertLock(ghost t: nat, documentName: string) returns (existing: Option<nat>, own: nat)
      requires At(t, documentName, Inserting)
      modifies this
      ensures View() == Apply(old(View()), Advance(t, true))
      ensures At(t, documentName, if existing.Some? then AtOther(existing.value) else Loading(own))
    {
      own := |locks|;
      if documentName in loadingDocuments {
        existing := Some(loadingDocuments[documentName]);
        Go(t, AtOther(existing.value));
      } else {
        existing := None;
        locks := locks + [Lock(documentName, None)];
        loadingDocuments := loadingDocuments[documentName := own];
        Go(t, Loading(own));
      }
    }

    method CheckDocumentsLast(ghost t: nat, documentName: string) returns (answer: Answer)
      requires At(t, documentName, RecheckingOther)
      modifies this
      ensures View() == Apply(old(View()), Advance(t, true))
      ensures At(t, documentName, Finished) && results[|results|-1].answer == answer
    {
      answer := if documentName in documents then Ok(documents[documentName]) else Failed;
      Return(t, answer);
    }

    /** The hooks have had their say. */
    method LoadDocument(ghost t: nat, documentName: string, lock: nat, loads: bool, doc: nat) returns (answer: Answer)
      requires At(t, documentName, Loading(lock)) && doc == |loaded|
      modifies this
      ensures View() == Apply(old(View()), Advance(t, loads))
      ensures At(t, documentName, Setting(lock, answer))
    {
      if loads {
        answer := Ok(doc);
        loaded := loaded + [documentName];
      } else {
        answer := Failed;
      }
      Go(t, Setting(lock, answer));
    }

    method SetAnswer(ghost t: nat, documentName: string, lock: nat, answer: Answer)
      requires At(t, documentName, Setting(lock, answer)) && lock < |locks|
      modifies this
      ensures View() == Apply(old(View()), Advance(t, true))
    {
      locks := locks[lock := locks[lock].(answer := Some(answer))];
      Go(t, if answer.Ok? then Publishing(lock, answer.doc) else Removing(lock, answer));
    }

    method InsertDocument(ghost t: nat, documentName: string, lock: nat, doc: nat)
      requires At(t, documentName, Publishing(lock, doc))
      modifies this
      ensures View() == Apply(old(View()), Advance(t, true))
    {
      documents := documents[documentName := doc];
      Go(t, Removing(lock, Ok(doc)));
    }

    method RemoveLoad(ghost t: nat, documentName: string, ghost lock: nat, answer: Answer)
      requires At(t, documentName, Removing(lock, answer))
      modifies this
      ensures View() == Apply(old(View()), Advance(t, true))
      ensures results[|results|-1].answer == answer
    {
      loadingDocuments := loadingDocuments - {documentName};
      Return(t, answer);
    }

    /** The one step of unloading that touches the documents: it goes by the name. */
    method RemoveDocument(documentName: string)
      modifies this
      ensures View() == Apply(old(View()), Unload(documentName))
    {
      if documentName in documents {
        epochs := epochs[documentName := Epoch(View(), documentName) + 1];
        documents := documents - {documentName};
      }
    }
  }
}
