/**
 * The `Execute` module (src/core/Wyam.Core/Modules/Extensibility/Execute.cs):
 * a module whose behaviour is a user delegate over the input documents, and
 * the helpers that turn whatever such a delegate returns into output documents.
 *
 * The delegates, `IExecutionContext.ExecuteAsync` and
 * `IExecutionContext.GetDocumentAsync` are given functions; the tasks around
 * them are not modelled, so every operation is a synchronous function.
 */
module Extensibility {
  import opened Wrappers

  /** A document, by identity; nothing here looks inside one. */
  datatype Document = Document(id: nat)

  /** An `IModule` instance, by identity. */
  datatype ModuleRef = ModuleRef(id: nat)

  /**
   * The `object` a delegate returns. `Null` is the null reference. An
   * `Instance` records the simple name of its runtime type, what its
   * `ToString()` yields, and, for each interface the dispatch tests, whether
   * the runtime type implements it: `asDocument` is the object seen as an
   * `IDocument`, `asDocuments` what it enumerates as an `IEnumerable<IDocument>`,
   * `asModule` the object seen as an `IModule`, `asModules` what it enumerates
   * as an `IEnumerable<IModule>`. One object may implement several of them.
   */
  datatype Object =
    | Null
    | Instance(typeName: string, text: string,
               asDocument: Option<Document>, asDocuments: Option<seq<Document>>,
               asModule: Option<ModuleRef>, asModules: Option<seq<ModuleRef>>)

  /** `result is IDocument` */
  predicate IsDocument(result: Object) { result.Instance? && result.asDocument.Some? }

  /** `result is IEnumerable<IDocument>` */
  predicate IsDocuments(result: Object) { result.Instance? && result.asDocuments.Some? }

  /** `result is IModule` */
  predicate IsModule(result: Object) { result.Instance? && result.asModule.Some? }

  /** `result is IEnumerable<IModule>` */
  predicate IsModules(result: Object) { result.Instance? && result.asModules.Some? }

  /** The two services of the execution context the helpers call. */
  datatype Context = Context(
    executeModules: (seq<ModuleRef>, seq<Document>) -> seq<Document>,
    getDocument: (Document, string) -> Document)

  /**
   * An `Execute` module, by the constructor that built it: from a delegate
   * returning an object, from one returning a bare task, or from an action.
   * What the last two do besides returning is outside the model.
   */
  datatype Execute =
    | ObjectDelegate(execute: (seq<Document>, Context) -> Object)
    | TaskDelegate(run: (seq<Document>, Context) -> ())
    | ActionDelegate(run: (seq<Document>, Context) -> ())

  /** The exceptions the helpers raise. */
  datatype Error =
    | NullReference                       // a member was called on a null result
    | InvalidDelegateResult(typeName: string)

  /**
   * `GetDocuments`: a single document becomes a one-element sequence, tested
   * before the sequence case; a document sequence is taken as it is; anything
   * else, null included, yields null (`None`).
   */
  function GetDocuments(result: Object): (documents: Option<seq<Document>>)
    ensures IsDocument(result) ==> documents == Some([result.asDocument.value])
    ensures !IsDocument(result) && IsDocuments(result) ==> documents == Some(result.asDocuments.value)
    ensures documents.None? <==> !IsDocument(result) && !IsDocuments(result)
  {
    if IsDocument(result) then Some([result.asDocument.value])
    else if result.Instance? then result.asDocuments
    else None
  }

  /**
   * `IModule.ExecuteAsync` of an `Execute` module: the output documents for
   * the given inputs. With an object-returning delegate the delegate's
   * documents replace the inputs when it returned any document or document
   * sequence (an empty sequence included), and the inputs pass through
   * otherwise; the task and action constructors always pass the inputs through.
   */
  function ExecuteAsync(m: Execute, inputs: seq<Document>, context: Context): (outputs: seq<Document>)
    ensures m.ObjectDelegate? && IsDocument(m.execute(inputs, context)) ==>
              outputs == [m.execute(inputs, context).asDocument.value]
    ensures m.ObjectDelegate? && !IsDocument(m.execute(inputs, context)) && IsDocuments(m.execute(inputs, context)) ==>
              outputs == m.execute(inputs, context).asDocuments.value
    ensures m.ObjectDelegate? && !IsDocument(m.execute(inputs, context)) && !IsDocuments(m.execute(inputs, context)) ==>
              outputs == inputs
    ensures !m.ObjectDelegate? ==> outputs == inputs
  {
    match m
    case ObjectDelegate(execute) =>
      var documents := GetDocuments(execute(inputs, context));
      if documents.Some? then documents.value else inputs
    case TaskDelegate(_) => inputs
    case ActionDelegate(_) => inputs
  }

  /**
   * The modules a delegate result stands for, as `ExecuteModulesAsync` reads
   * it: a single `IModule` is tested first and becomes a one-element list even
   * when it also enumerates modules; otherwise a module sequence is taken as it
   * is; anything else is null.
   */
  function ModulesOf(results: Object): (modules: Option<seq<ModuleRef>>)
    ensures IsModule(results) ==> modules == Some([results.asModule.value])
    ensures !IsModule(results) && IsModules(results) ==> modules == Some(results.asModules.value)
    ensures modules.None? <==> !IsModule(results) && !IsModules(results)
  {
    if IsModule(results) then Some([results.asModule.value])
    else if results.Instance? then results.asModules
    else None
  }

  /**
   * `ExecuteModulesAsync`: runs the modules the result stands for against the
   * inputs through the context, or yields null when it stands for none.
   */
  function ExecuteModulesAsync(results: Object, context: Context, inputs: seq<Document>): (outputs: Option<seq<Document>>)
    ensures outputs.None? <==> !IsModule(results) && !IsModules(results)
    ensures IsModule(results) ==> outputs == Some(context.executeModules([results.asModule.value], inputs))
    ensures !IsModule(results) && IsModules(results) ==>
              outputs == Some(context.executeModules(results.asModules.value, inputs))
  {
    var modules := ModulesOf(results);
    if modules.Some? then Some(context.executeModules(modules.value, inputs)) else None
  }

  /**
   * A result that is neither a module nor a module sequence runs nothing: the
   * outcome is null whatever the context would have executed.
   */
  lemma NoModulesRunsNothing(results: Object, c1: Context, c2: Context, inputs: seq<Document>)
    requires !IsModule(results) && !IsModules(results)
    ensures ExecuteModulesAsync(results, c1, inputs) == ExecuteModulesAsync(results, c2, inputs) == None
  {
  }

  /**
   * `ChangeContentAsync`: one new document, made by the context from the input
   * document and the text of the result. Calling `ToString()` on a null result
   * throws.
   */
  function ChangeContentAsync(result: Object, context: Context, document: Document): (r: Result<seq<Document>, Error>)
    ensures r.Success? <==> result.Instance?
    ensures r.Success? ==> |r.value| == 1 && r.value[0] == context.getDocument(document, result.text)
    ensures r.Failure? ==> r.error == NullReference
  {
    if result.Null? then Failure(NullReference)
    else Success([context.getDocument(document, result.text)])
  }

  /**
   * `ThrowInvalidDelegateResult`: never returns normally. It reports the
   * runtime type name of the result, and a null result fails already when its
   * type is asked for.
   */
  function ThrowInvalidDelegateResult(result: Object): (r: Result<seq<Document>, Error>)
    ensures r.Failure?
    ensures result.Instance? ==> r.error == InvalidDelegateResult(result.typeName)
    ensures result.Null? ==> r.error == NullReference
  {
    if result.Null? then Failure(NullReference)
    else Failure(InvalidDelegateResult(result.typeName))
  }

  const InvalidResultPrefix := "Execute delegate must return IEnumerable<IDocument>, IDocument, IEnumerable<IModule>, IModule, or null; "
  const InvalidResultSuffix := " is an invalid return type"

  /** The message of the exception `ThrowInvalidDelegateResult` throws, which names the offending type. */
  function InvalidResultMessage(typeName: string): (message: string)
    ensures |message| == |InvalidResultPrefix| + |typeName| + |InvalidResultSuffix|
    ensures message[..|InvalidResultPrefix|] == InvalidResultPrefix
    ensures message[|InvalidResultPrefix|..|InvalidResultPrefix| + |typeName|] == typeName
    ensures message[|InvalidResultPrefix| + |typeName|..] == InvalidResultSuffix
  {
    InvalidResultPrefix + typeName + InvalidResultSuffix
  }
}
