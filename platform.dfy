/**
  The parts of Qt and of the platform that the storage client calls but whose behaviour
  is not modelled: they are represented by values, not by code.
*/
module Platform {

  /** One octet of a QByteArray. */
  newtype byte = x: int | 0 <= x < 256

  datatype Option<+T> = None | Some(value: T)

  /**
    The token kinds QXmlStreamReader reports, as far as the list decoder tells them apart.
    Whitespace between elements arrives as Characters. Other stands for StartDocument,
    EndDocument, Comment, DTD, EntityReference and ProcessingInstruction tokens.
  */
  datatype Token =
    | StartElement(name: string)
    | EndElement(name: string)
    | Characters(text: string)
    | Invalid
    | Other

  /**
    Library calls of the client, as uninterpreted functions:
    utf8        QString::toUtf8 / toStdString
    fromBase64  QByteArray::fromBase64
    toBase64    QByteArray::toBase64, read back into a QString
    hmacSha256  QMessageAuthenticationCode::hash(message, key, QCryptographicHash::Sha256)
    xmlTokens   the token sequence a QXmlStreamReader reads from a byte array
    appendBool  what QString::append contributes to a string when it is handed a bool
  */
  datatype Library = Library(
    utf8: string -> seq<byte>,
    fromBase64: seq<byte> -> seq<byte>,
    toBase64: seq<byte> -> string,
    hmacSha256: (seq<byte>, seq<byte>) -> seq<byte>,
    xmlTokens: seq<byte> -> seq<Token>,
    appendBool: bool -> string
  )
}
