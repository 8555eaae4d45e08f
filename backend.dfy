/**
 * The external backend (`EzcaretechExternalApi`) as seen by the authenticator:
 * two calls, each answering with a value or throwing `IOException`.  The
 * HTTP exchange and JSON decoding are not modelled: the answers are fixed
 * when the stub is made, and every call is appended to a request log.
 */
module Backend {
  import opened Wrappers
  import opened Dto

  /** A remote call's outcome: a (possibly null) value, or an `IOException`. */
  datatype Reply<T> = Returned(value: T) | IOFailure

  datatype Request = TokenRequest(username: string, password: string) | ProfileRequest(token: string)

  class ExternalApi {
    const tokenReply: Reply<Option<string>>
    const profileReply: Reply<Option<UserResponse>>
    var requests: seq<Request>

    constructor (tokenReply: Reply<Option<string>>, profileReply: Reply<Option<UserResponse>>)
      ensures this.tokenReply == tokenReply && this.profileReply == profileReply
      ensures requests == []
    {
      this.tokenReply := tokenReply;
      this.profileReply := profileReply;
      requests := [];
    }

    /** `getTokenAuthenticateToExternalApi(username, password)`. */
    method GetToken(username: string, password: string) returns (r: Reply<Option<string>>)
      modifies this
      ensures r == tokenReply
      ensures requests == old(requests) + [TokenRequest(username, password)]
    {
      requests := requests + [TokenRequest(username, password)];
      r := tokenReply;
    }

    /** `getProfileToExternalApi(token)`. */
    method GetProfile(token: string) returns (r: Reply<Option<UserResponse>>)
      modifies this
      ensures r == profileReply
      ensures requests == old(requests) + [ProfileRequest(token)]
    {
      requests := requests + [ProfileRequest(token)];
      r := profileReply;
    }
  }
}
