/**
 QRCode: the text and link of a QR code on the viewer, written in the configuration file as
 `label|url`.
 */
module QRCodes {
  /** The separator between the label and the link (`SEP`). */
  const SEP: char := '|'

  /** A QR code's label (`label`, a reserved word in Dafny) and link; the constructor stores both unchanged and checks neither. */
  datatype QRCode = QRCode(text: string, url: string)

  /** `toString`: the label, the separator, then the link. */
  function ToString(q: QRCode): (r: string)
    ensures |r| == |q.text| + 1 + |q.url|
    ensures r[..|q.text|] == q.text && r[|q.text|] == SEP && r[|q.text| + 1..] == q.url
  {
    q.text + [SEP] + q.url
  }
}
