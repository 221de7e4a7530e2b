/**
 * The library calls src/index.js makes, as function values. The model is
 * parametric in them: nothing is assumed about what they compute.
 */
module Foreign {
  import opened Wrappers
  import opened Json

  datatype Libraries = Libraries(
    /** `crypto.createHmac('sha256', key).update(data).digest('hex')` */
    hmac: (string, string) -> string,
    /** the `is-absolute-url` package */
    isAbsoluteUrl: string -> bool,
    /** `querystring.stringify(options)` */
    stringify: map<string, string> -> string,
    /** `url.parse(u, true).query` */
    query: string -> map<string, string>,
    /** `url.parse(u).pathname`, which is `null` for some URLs */
    pathname: string -> Option<string>,
    /** `JSON.parse(text)`; `None` when it throws */
    parseJson: string -> Option<Value>,
    /** `new Date(v)`, where `None` is `new Date(undefined)` */
    toDate: Option<Value> -> DateTime
  )
}
