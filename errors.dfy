/** The exception hierarchy of utils/exceptions.py, plus the few Python
    built-in exceptions the core raises or lets escape. */
module Errors {
  import opened Wrappers

  datatype ErrorKind =
    // Python built-ins
    | ValueError | KeyError | IndexError | NotImplementedError | ZeroDivisionError
    // the package's own hierarchy
    | RAGException
    | IndexingError | TranscriptFetchError | TranscriptNotAvailableError
    | EmbeddingGenerationError | VectorStoreError
    | RetrievalError | QueryRewriteError | SearchError | RerankingError
    | GenerationError | LLMError | PromptTooLongError | CitationError
    | ValidationError | InvalidVideoIDError | InvalidURLError | InvalidConfigError
    | APIError | RateLimitError | AuthenticationError | ResourceNotFoundError

  /** An exception: its class and `str(e)`. */
  datatype Error = Error(kind: ErrorKind, message: string)

  /** The direct base class of each package exception. */
  function Parent(k: ErrorKind): Option<ErrorKind> {
    match k
    case ValueError => None
    case KeyError => None
    case IndexError => None
    case NotImplementedError => None
    case ZeroDivisionError => None
    case RAGException => None
    case IndexingError => Some(RAGException)
    case TranscriptFetchError => Some(IndexingError)
    case TranscriptNotAvailableError => Some(IndexingError)
    case EmbeddingGenerationError => Some(IndexingError)
    case VectorStoreError => Some(IndexingError)
    case RetrievalError => Some(RAGException)
    case QueryRewriteError => Some(RetrievalError)
    case SearchError => Some(RetrievalError)
    case RerankingError => Some(RetrievalError)
    case GenerationError => Some(RAGException)
    case LLMError => Some(GenerationError)
    case PromptTooLongError => Some(GenerationError)
    case CitationError => Some(GenerationError)
    case ValidationError => Some(RAGException)
    case InvalidVideoIDError => Some(ValidationError)
    case InvalidURLError => Some(ValidationError)
    case InvalidConfigError => Some(ValidationError)
    case APIError => Some(RAGException)
    case RateLimitError => Some(APIError)
    case AuthenticationError => Some(APIError)
    case ResourceNotFoundError => Some(APIError)
  }

  /** `isinstance(e, c)`: k is c or a subclass of c (the hierarchy is at most
      three levels deep). */
  predicate IsA(k: ErrorKind, c: ErrorKind) {
    k == c
    || Parent(k) == Some(c)
    || (Parent(k).Some? && Parent(Parent(k).value) == Some(c))
  }

  /** Every package exception can be caught as RAGException, the built-ins cannot. */
  lemma PackageErrorsAreRAGExceptions(k: ErrorKind)
    ensures IsA(k, RAGException) <==> !(k.ValueError? || k.KeyError? || k.IndexError? || k.NotImplementedError? || k.ZeroDivisionError?)
  {
  }
}
