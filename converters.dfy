/**
 * The converter abstraction: one conversion step from a document to a string,
 * and the Markdown -> HTML -> XHTML chain built from two such steps.
 *
 * The stages themselves run XSLT programs that are not part of this model;
 * a stage is therefore a function value, and everything proved here holds
 * for every stage of that shape: one given the original file location, the
 * document text chosen by the reader rule, and the transformer creator.
 */
module Converters {
  import opened Wrappers
  import opened JavaFile

  /** `javax.xml.transform.TransformerException`, the only way a step fails. */
  datatype TransformError =
    | SourceUnreadable(file: File)    // the document at the given file could not be read
    | TransformFailed(message: string) // the transform program reported an error

  /** Handle on the factory that builds transformer engines (`TransformerFactoryCreator`). */
  datatype TransformerCreator = TransformerCreator(id: nat)

  /** Contents of the readable files. */
  type FileSystem = map<File, string>

  /**
   * The work of one stage: given the original file location (the base for
   * relative references), the document text and the transformer creator,
   * the whole converted text or an error.
   */
  type Transform = (File, string, TransformerCreator) -> Result<string, TransformError>

  /** A `Converter.convert` call shape: (files, original file, content reader, creator). */
  type ConvertFunction = (FileSystem, File, Option<string>, TransformerCreator) -> Result<string, TransformError>

  /**
   * The document a step processes: the content reader when one is given,
   * otherwise the original file.
   */
  function Document(fs: FileSystem, originalFile: File, contentReader: Option<string>): (r: Result<string, TransformError>)
    ensures contentReader.Some? ==> r == Success(contentReader.value)
    ensures contentReader.None? && originalFile in fs ==> r == Success(fs[originalFile])
    ensures contentReader.None? && originalFile !in fs ==> r == Failure(SourceUnreadable(originalFile))
  {
    match contentReader
    case Some(content) => Success(content)
    case None => if originalFile in fs then Success(fs[originalFile]) else Failure(SourceUnreadable(originalFile))
  }

  /** `Converter.convert` for a single stage. */
  function Convert(stage: Transform, fs: FileSystem, originalFile: File, contentReader: Option<string>,
                   transformerCreator: TransformerCreator): (r: Result<string, TransformError>)
    ensures Document(fs, originalFile, contentReader).Failure? ==> r == Document(fs, originalFile, contentReader).PropagateFailure()
    ensures Document(fs, originalFile, contentReader).Success? ==>
              r == stage(originalFile, Document(fs, originalFile, contentReader).value, transformerCreator)
  {
    var document :- Document(fs, originalFile, contentReader);
    stage(originalFile, document, transformerCreator)
  }

  /**
   * What the `Converter` interface promises about the content reader: when
   * one is given, the file's own content makes no difference to the result.
   */
  ghost predicate HonoursContentReader(convert: ConvertFunction)
  {
    forall fs1: FileSystem, fs2: FileSystem, f: File, content: string, tc: TransformerCreator
      {:trigger convert(fs1, f, Some(content), tc), convert(fs2, f, Some(content), tc)} ::
      convert(fs1, f, Some(content), tc) == convert(fs2, f, Some(content), tc)
  }

  /** A reader, when given, is converted instead of the file. */
  lemma ConvertReaderOverridesFile(stage: Transform, fs1: FileSystem, fs2: FileSystem, originalFile: File,
                                   content: string, transformerCreator: TransformerCreator)
    ensures Convert(stage, fs1, originalFile, Some(content), transformerCreator)
         == Convert(stage, fs2, originalFile, Some(content), transformerCreator)
         == stage(originalFile, content, transformerCreator)
  {
  }

  /** Without a reader, the document converted is the original file's content. */
  lemma ConvertWithoutReaderReadsFile(stage: Transform, fs: FileSystem, originalFile: File,
                                      transformerCreator: TransformerCreator)
    ensures originalFile in fs ==>
              Convert(stage, fs, originalFile, None, transformerCreator) == stage(originalFile, fs[originalFile], transformerCreator)
    ensures originalFile !in fs ==>
              Convert(stage, fs, originalFile, None, transformerCreator) == Failure(SourceUnreadable(originalFile))
  {
  }

  /** Every single stage keeps the interface's promise about the content reader. */
  lemma ConvertHonoursContentReader(stage: Transform)
    ensures HonoursContentReader((fs, f, reader, tc) => Convert(stage, fs, f, reader, tc))
  {
  }

  /**
   * `MarkdownToXhmlConverter.convert`, as written: the Markdown -> HTML stage
   * is called with no content reader, so it reads the original file, and its
   * text is handed, as an in-memory reader, to the HTML -> XHTML stage. Both
   * stages receive the original file location and the same creator. The
   * caller's `contentReader` is never used.
   */
  function MarkdownToXhtml(markdownToHtml: Transform, htmlToXhtml: Transform, fs: FileSystem,
                           originalFileLocation: File, contentReader: Option<string>,
                           transformerCreator: TransformerCreator): (r: Result<string, TransformError>)
    ensures Convert(markdownToHtml, fs, originalFileLocation, None, transformerCreator).Failure? ==>
              r == Convert(markdownToHtml, fs, originalFileLocation, None, transformerCreator)
    ensures Convert(markdownToHtml, fs, originalFileLocation, None, transformerCreator).Success? ==>
              r == htmlToXhtml(originalFileLocation,
                               Convert(markdownToHtml, fs, originalFileLocation, None, transformerCreator).value,
                               transformerCreator)
  {
    var htmlContent :- Convert(markdownToHtml, fs, originalFileLocation, None, transformerCreator);
    Convert(htmlToXhtml, fs, originalFileLocation, Some(htmlContent), transformerCreator)
  }

  /** The chain's result does not depend on the reader its caller passes. */
  lemma MarkdownToXhtmlIgnoresContentReader(markdownToHtml: Transform, htmlToXhtml: Transform, fs: FileSystem,
                                            originalFileLocation: File, reader1: Option<string>, reader2: Option<string>,
                                            transformerCreator: TransformerCreator)
    ensures MarkdownToXhtml(markdownToHtml, htmlToXhtml, fs, originalFileLocation, reader1, transformerCreator)
         == MarkdownToXhtml(markdownToHtml, htmlToXhtml, fs, originalFileLocation, reader2, transformerCreator)
  {
  }

  /**
   * When the Markdown stage fails, its error is the chain's error, whatever
   * the second stage would have done: the second stage is never consulted.
   */
  lemma MarkdownToXhtmlFirstFailure(markdownToHtml: Transform, htmlToXhtml1: Transform, htmlToXhtml2: Transform,
                                    fs: FileSystem, originalFileLocation: File, contentReader: Option<string>,
                                    transformerCreator: TransformerCreator, e: TransformError)
    requires Convert(markdownToHtml, fs, originalFileLocation, None, transformerCreator) == Failure(e)
    ensures MarkdownToXhtml(markdownToHtml, htmlToXhtml1, fs, originalFileLocation, contentReader, transformerCreator) == Failure(e)
    ensures MarkdownToXhtml(markdownToHtml, htmlToXhtml2, fs, originalFileLocation, contentReader, transformerCreator) == Failure(e)
  {
  }

  /**
   * After the Markdown stage yields `html`, the chain's result is the XHTML
   * stage's result on `html` as it is: its text on success, and on failure
   * its error, with no partial text.
   */
  lemma MarkdownToXhtmlOutcome(markdownToHtml: Transform, htmlToXhtml: Transform, fs: FileSystem,
                               originalFileLocation: File, contentReader: Option<string>,
                               transformerCreator: TransformerCreator, html: string)
    requires Convert(markdownToHtml, fs, originalFileLocation, None, transformerCreator) == Success(html)
    ensures MarkdownToXhtml(markdownToHtml, htmlToXhtml, fs, originalFileLocation, contentReader, transformerCreator)
         == htmlToXhtml(originalFileLocation, html, transformerCreator)
  {
  }

  /**
   * The chain reads nothing but the original file: two file systems that
   * agree on it (both hold the same text, or both lack it) give the same result.
   */
  lemma MarkdownToXhtmlReadsOnlyOriginalFile(markdownToHtml: Transform, htmlToXhtml: Transform,
                                             fs1: FileSystem, fs2: FileSystem, originalFileLocation: File,
                                             contentReader: Option<string>, transformerCreator: TransformerCreator)
    requires originalFileLocation in fs1 <==> originalFileLocation in fs2
    requires originalFileLocation in fs1 ==> fs1[originalFileLocation] == fs2[originalFileLocation]
    ensures MarkdownToXhtml(markdownToHtml, htmlToXhtml, fs1, originalFileLocation, contentReader, transformerCreator)
         == MarkdownToXhtml(markdownToHtml, htmlToXhtml, fs2, originalFileLocation, contentReader, transformerCreator)
  {
  }

  /** A stage that returns its input unchanged; used to exhibit the chain's behaviour. */
  function Identity(location: File, document: string, transformerCreator: TransformerCreator): Result<string, TransformError>
  {
    Success(document)
  }

  /**
   * The chain as written breaks the interface's promise: with two stages
   * that pass text through, a given reader is ignored and the file is
   * converted instead, so two file systems give two different results.
   */
  lemma MarkdownToXhtmlBreaksReaderContract()
    ensures MarkdownToXhtml(Identity, Identity, map[File("/notes.md") := "# file"], File("/notes.md"),
                            Some("# reader"), TransformerCreator(0)) == Success("# file")
    ensures !HonoursContentReader((fs, f, reader, tc) => MarkdownToXhtml(Identity, Identity, fs, f, reader, tc))
  {
    var f, tc := File("/notes.md"), TransformerCreator(0);
    var fs1: FileSystem, fs2: FileSystem := map[f := "# file"], map[f := "# other"];
    var chain: ConvertFunction := (fs, f, reader, tc) => MarkdownToXhtml(Identity, Identity, fs, f, reader, tc);
    assert chain(fs1, f, Some("# reader"), tc) == Success("# file");
    assert chain(fs2, f, Some("# reader"), tc) == Success("# other");
  }

  /**
   * The chain as the interface means it: the caller's reader, when given,
   * is what the Markdown stage converts.
   */
  function MarkdownToXhtmlWithReader(markdownToHtml: Transform, htmlToXhtml: Transform, fs: FileSystem,
                                     originalFileLocation: File, contentReader: Option<string>,
                                     transformerCreator: TransformerCreator): (r: Result<string, TransformError>)
    ensures Convert(markdownToHtml, fs, originalFileLocation, contentReader, transformerCreator).Failure? ==>
              r == Convert(markdownToHtml, fs, originalFileLocation, contentReader, transformerCreator)
    ensures Convert(markdownToHtml, fs, originalFileLocation, contentReader, transformerCreator).Success? ==>
              r == htmlToXhtml(originalFileLocation,
                               Convert(markdownToHtml, fs, originalFileLocation, contentReader, transformerCreator).value,
                               transformerCreator)
  {
    var htmlContent :- Convert(markdownToHtml, fs, originalFileLocation, contentReader, transformerCreator);
    Convert(htmlToXhtml, fs, originalFileLocation, Some(htmlContent), transformerCreator)
  }

  /**
   * The corrected chain keeps the interface's promise for all stages, and
   * without a reader it behaves exactly like the chain as written.
   */
  lemma MarkdownToXhtmlWithReaderHonoursReader(markdownToHtml: Transform, htmlToXhtml: Transform)
    ensures HonoursContentReader((fs, f, reader, tc) => MarkdownToXhtmlWithReader(markdownToHtml, htmlToXhtml, fs, f, reader, tc))
    ensures forall fs, f, reader, tc ::
              MarkdownToXhtmlWithReader(markdownToHtml, htmlToXhtml, fs, f, None, tc)
              == MarkdownToXhtml(markdownToHtml, htmlToXhtml, fs, f, reader, tc)
  {
  }
}
