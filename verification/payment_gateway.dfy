/**
 * The outbound half of `POST /orders/:id/pay` in app.js: the payment request built for the PhonePe
 * sandbox, its base64 payload, and the X-VERIFY checksum that signs it. JSON serialisation, base64 and
 * SHA-256 are library calls and enter as functions the caller supplies.
 */
module PaymentGateway {
  import opened JsParseInt

  /** The signed-in user as the pay handler reads it from `req.user`. */
  datatype User = User(id: string, name: string, phone: string)

  /** `generatedTranscId()`: `Math.floor(100000000 + Math.random() * 900000000)`, a nine-digit number. */
  type TransactionNumber = n: nat | 100000000 <= n <= 999999999 witness 100000000

  /** The `data` object the handler serialises. */
  datatype PaymentRequest = PaymentRequest(
    merchantId: string,
    merchantTransactionId: TransactionNumber,
    merchantUserId: string,
    name: string,
    amount: real,
    redirectUrl: string,
    redirectMode: string,
    mobileNumber: string,
    paymentInstrumentType: string)

  /** The library functions the handler calls, left uninterpreted. */
  datatype Primitives = Primitives(
    stringify: PaymentRequest -> string,  // JSON.stringify
    base64: string -> string,             // Buffer.from(s).toString("base64")
    sha256Hex: string -> string)          // CryptoJS.SHA256(s).toString()

  /** What `axios.request` is given: method, URL, the three headers and the `{request}` body. */
  datatype OutboundRequest = OutboundRequest(
    httpMethod: string,
    url: string,
    accept: string,
    contentType: string,
    xVerify: string,
    request: string)

  const MerchantId := "PGTESTPAYUAT"
  const SaltKey := "099eb0cd-02cf-4e2a-8aca-3e6c6aff0399"
  const SaltIndex: nat := 1
  const PayPath := "/pg/v1/pay"
  const PayUrl := "https://api-preprod.phonepe.com/apis/pg-sandbox/pg/v1/pay"
  const RedirectBase := "http://localhost:3001/api/v1/orders/status/"

  /**
   * The X-VERIFY value: the hex SHA-256 of payload, API path and salt key, then "###", then the salt index
   * in decimal.
   */
  function Checksum(sha256Hex: string -> string, payload: string, apiPath: string, key: string, keyIndex: nat): (c: string)
    ensures var digest := sha256Hex(payload + apiPath + key);
      && |c| == |digest| + 3 + |ShowNat(keyIndex)|
      && c[..|digest|] == digest
      && c[|digest|..|digest| + 3] == "###"
      && c[|digest| + 3..] == ShowNat(keyIndex)
  {
    var digest := sha256Hex(payload + apiPath + key);
    var c := digest + "###" + ShowNat(keyIndex);
    assert c[|digest| + 3..] == ShowNat(keyIndex);
    c
  }

  /** The part after "###" is a numeral that `parseInt` reads back as the key index. */
  lemma ChecksumReadsBackKeyIndex(sha256Hex: string -> string, payload: string, apiPath: string, key: string, keyIndex: nat)
    ensures var c := Checksum(sha256Hex, payload, apiPath, key, keyIndex);
      var digest := sha256Hex(payload + apiPath + key);
      |c| >= |digest| + 3 && ParseInt(c[|digest| + 3..]) == Int(keyIndex)
  {
    ParseIntOfShowInt(keyIndex);
  }

  /**
   * The `data` object: the order total converted to minor units, the user's id, name and phone, and two
   * separately drawn transaction numbers, one as `merchantTransactionId` and one in the redirect URL.
   */
  function PaymentData(total: real, user: User, merchantTxn: TransactionNumber, redirectTxn: TransactionNumber): (d: PaymentRequest)
    ensures d.merchantId == MerchantId && d.merchantTransactionId == merchantTxn
    ensures d.merchantUserId == "MUID" + user.id && d.name == user.name && d.mobileNumber == user.phone
    ensures d.amount == total * 100.0
    ensures |d.redirectUrl| > |RedirectBase| && d.redirectUrl[..|RedirectBase|] == RedirectBase
    ensures AllDigits(d.redirectUrl[|RedirectBase|..], 10) && d.redirectUrl[|RedirectBase|] != '0'
    ensures ParseInt(d.redirectUrl[|RedirectBase|..]) == Int(redirectTxn)
    ensures d.redirectMode == "POST" && d.paymentInstrumentType == "PAY_PAGE"
  {
    var url := RedirectBase + ShowNat(redirectTxn);
    assert url[|RedirectBase|..] == ShowNat(redirectTxn);
    ParseIntOfShowInt(redirectTxn);
    PaymentRequest(MerchantId, merchantTxn, "MUID" + user.id, user.name, total * 100.0,
                   url, "POST", user.phone, "PAY_PAGE")
  }

  /**
   * The request handed to the gateway: the base64 of the serialised data travels as `request`, and the
   * X-VERIFY header signs exactly that string for the path "/pg/v1/pay" with salt index 1.
   */
  function Outbound(prims: Primitives, data: PaymentRequest): (r: OutboundRequest)
    ensures r.request == prims.base64(prims.stringify(data))
    ensures r.xVerify == prims.sha256Hex(r.request + PayPath + SaltKey) + "###1"
    ensures r.httpMethod == "POST" && r.url == PayUrl
    ensures r.accept == "application/json" && r.contentType == "application/json"
  {
    var payloadMain := prims.base64(prims.stringify(data));
    var checksum := Checksum(prims.sha256Hex, payloadMain, PayPath, SaltKey, SaltIndex);
    assert checksum == prims.sha256Hex(payloadMain + PayPath + SaltKey) + "###1" by {
      assert ShowNat(SaltIndex) == "1";
    }
    OutboundRequest("POST", PayUrl, "application/json", "application/json", checksum, payloadMain)
  }

  /** Every checksum the handler sends ends in "###1", whatever the payload and the hash. */
  lemma ChecksumEndsWithSaltIndex(prims: Primitives, data: PaymentRequest)
    ensures var v := Outbound(prims, data).xVerify; |v| >= 4 && v[|v| - 4..] == "###1"
  {
    var r := Outbound(prims, data);
    var digest := prims.sha256Hex(r.request + PayPath + SaltKey);
    assert r.xVerify[|r.xVerify| - 4..] == (digest + "###1")[|digest|..];
  }
}
