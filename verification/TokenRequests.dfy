/** The two kinds of token a caller can ask for (`src/endpoints.rs`, `src/token/oxide.rs`). */
module TokenRequests {

  import opened GitHubRequest

  type u32 = x: int | 0 <= x < 0x1_0000_0000

  /** A parsed URL; `text` is its canonical serialization. */
  datatype Url = Url(text: string)

  datatype OxideTokenRequest = OxideTokenRequest(silo: Url, duration: u32)

  datatype TokenRequest =
    | Oxide(oxide: OxideTokenRequest)
    | GitHub(github: GitHubTokenRequest)
}
