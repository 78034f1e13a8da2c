/**
  The payment sandbox: a server that answers a repeated idempotency token with the body it
  built the first time, and the service that turns a strategy into one request.
 */
module Sandbox {
  import opened Wrappers
  import opened Domain

  datatype Path = Orders | PaymentLinks

  datatype Entity = OrderEntity | LinkEntity | SessionEntity

  datatype Body = Body(id: ResourceId, entity: Entity, amount: int, shortUrl: Option<Link>)

  datatype Payload = Payload(amount: int, mandateUpdate: bool)

  /** What the server holds; `created` lists the tokens in the order their bodies were built. */
  datatype Server = Server(cache: map<Token, Body>, created: seq<Token>)

  const EMPTY := Server(map[], [])

  function NewBody(path: Path, payload: Payload, token: Token): Body {
    match path
    case Orders => Body(OrderId(token), OrderEntity, payload.amount, None)
    case PaymentLinks =>
      if payload.mandateUpdate then Body(SessionId(token), SessionEntity, payload.amount, Some(Link(token)))
      else Body(LinkId(token), LinkEntity, payload.amount, Some(Link(token)))
  }

  /** The sandbox resource of a key, and the link that pays it; retries of the payment have none. */
  function ResourceOf(key: Key): ResourceId {
    match key.strategy
    case RetryPayment | RetrySilently => OrderId(Token(key, false))
    case RequestNewMandate => SessionId(Token(key, true))
    case _ => LinkId(Token(key, false))
  }

  function LinkOf(key: Key): Option<Link> {
    match key.strategy
    case RetryPayment | RetrySilently => None
    case RequestNewMandate => Some(Link(Token(key, true)))
    case _ => Some(Link(Token(key, false)))
  }

  function Posted(server: Server, path: Path, payload: Payload, token: Token): Server {
    if token in server.cache then server
    else Server(server.cache[token := NewBody(path, payload, token)], server.created + [token])
  }

  ghost predicate ServerOk(server: Server) {
    && (forall t :: t in server.cache <==> t in server.created)
    && (forall i, j :: 0 <= i < j < |server.created| ==> server.created[i] != server.created[j])
    && (forall t :: t in server.cache ==>
          && server.cache[t].id.token == t
          && (server.cache[t].shortUrl.Some? ==> server.cache[t].shortUrl.value.token == t))
  }

  /** Everything the server has handed out stays as it was. */
  ghost predicate Grows(server: Server, later: Server) {
    && server.created <= later.created
    && forall t :: t in server.cache ==> t in later.cache && later.cache[t] == server.cache[t]
  }

  lemma PostKeepsServer(server: Server, path: Path, payload: Payload, token: Token)
    requires ServerOk(server)
    ensures var later := Posted(server, path, payload, token);
            ServerOk(later) && Grows(server, later) && token in later.cache
  {
    var later := Posted(server, path, payload, token);
    if token !in server.cache {
      assert later.created[|server.created|] == token;
      forall t ensures t in later.cache <==> t in later.created {
        if t in later.created && t != token {
          var i :| 0 <= i < |later.created| && later.created[i] == t;
          assert server.created[i] == t;
        }
        if t in server.created {
          var i :| 0 <= i < |server.created| && server.created[i] == t;
          assert later.created[i] == t;
        }
      }
    }
  }

  /** A second request under a token changes nothing, whatever it asks for: the first
      path and amount win. Different tokens never share a resource or a link. */
  lemma OneResourcePerToken(server: Server, path: Path, payload: Payload, token: Token,
                            path': Path, payload': Payload, token': Token)
    requires ServerOk(server)
    ensures var first := Posted(server, path, payload, token);
            var second := Posted(first, path', payload', token');
            && (token' == token ==> second == first)
            && (token' != token ==>
                  && second.cache[token'].id != second.cache[token].id
                  && (second.cache[token].shortUrl.Some? ==>
                      second.cache[token'].shortUrl != second.cache[token].shortUrl))
  {
    PostKeepsServer(server, path, payload, token);
    PostKeepsServer(Posted(server, path, payload, token), path', payload', token');
  }

  function TokenFor(key: Key): Token {
    Token(key, key.strategy.RequestNewMandate?)
  }

  function PathFor(strategy: Strategy): Path {
    if strategy.RetryPayment? || strategy.RetrySilently? then Orders else PaymentLinks
  }

  function PayloadFor(strategy: Strategy, amount: int): Payload {
    Payload(amount, strategy.RequestNewMandate?)
  }

  datatype PostReply = Answer(body: Body) | Failure(reply: Reply)

  class SandboxClient {
    var cache: map<Token, Body>
    ghost var created: seq<Token>

    constructor ()
      ensures Contents() == EMPTY
    {
      cache := map[];
      created := [];
    }

    ghost function Contents(): Server
      reads this
    {
      Server(cache, created)
    }

    method MockBody(path: Path, payload: Payload, token: Token) returns (body: Body)
      modifies this
      ensures Contents() == Posted(old(Contents()), path, payload, token)
      ensures token in cache && body == cache[token]
    {
      if token in cache {
        return cache[token];
      }
      if path.Orders? {
        body := Body(OrderId(token), OrderEntity, payload.amount, None);
      } else {
        var entity := if payload.mandateUpdate then SessionEntity else LinkEntity;
        body := Body(if entity.LinkEntity? then LinkId(token) else SessionId(token), entity, payload.amount,
                     Some(Link(token)));
      }
      cache := cache[token := body];
      created := created + [token];
    }

    /** One request over the wire: the reply may be lost after the server took it in. */
    method Post(path: Path, payload: Payload, token: Token, reply: Reply, applied: bool) returns (r: PostReply)
      modifies this
      ensures Contents() == if reply.Accepted? || applied then Posted(old(Contents()), path, payload, token)
                            else old(Contents())
      ensures reply.Accepted? ==> token in cache && r == Answer(cache[token])
      ensures !reply.Accepted? ==> r == Failure(reply)
    {
      if reply.Accepted? || applied {
        var body := MockBody(path, payload, token);
        r := Answer(body);
      }
      if !reply.Accepted? {
        r := Failure(reply);
      }
    }

    method CreatePaymentLink(amount: int, key: Key, reply: Reply, applied: bool) returns (r: PostReply)
      modifies this
      ensures Contents() == if reply.Accepted? || applied
                            then Posted(old(Contents()), PaymentLinks, Payload(amount, false), Token(key, false))
                            else old(Contents())
      ensures reply.Accepted? ==> Token(key, false) in cache && r == Answer(cache[Token(key, false)])
      ensures !reply.Accepted? ==> r == Failure(reply)
    {
      r := Post(PaymentLinks, Payload(amount, false), Token(key, false), reply, applied);
    }

    method CreateOrder(amount: int, key: Key, reply: Reply, applied: bool) returns (r: PostReply)
      modifies this
      ensures Contents() == if reply.Accepted? || applied
                            then Posted(old(Contents()), Orders, Payload(amount, false), Token(key, false))
                            else old(Contents())
      ensures reply.Accepted? ==> Token(key, false) in cache && r == Answer(cache[Token(key, false)])
      ensures !reply.Accepted? ==> r == Failure(reply)
    {
      r := Post(Orders, Payload(amount, false), Token(key, false), reply, applied);
    }

    method CreateMandateSession(amount: int, key: Key, reply: Reply, applied: bool) returns (r: PostReply)
      modifies this
      ensures Contents() == if reply.Accepted? || applied
                            then Posted(old(Contents()), PaymentLinks, Payload(amount, true), Token(key, true))
                            else old(Contents())
      ensures reply.Accepted? ==> Token(key, true) in cache && r == Answer(cache[Token(key, true)])
      ensures !reply.Accepted? ==> r == Failure(reply)
    {
      r := Post(PaymentLinks, Payload(amount, true), Token(key, true), reply, applied);
    }

    /** Strategies without a request answer None. */
    method ExecuteStrategy(strategy: Strategy, key: Key, amount: int, reply: Reply, applied: bool)
      returns (r: Option<PostReply>)
      requires key.strategy == strategy
      modifies this
      ensures r.Some? <==> IsOutbound(strategy)
      ensures Contents() == if IsOutbound(strategy) && (reply.Accepted? || applied)
                            then Posted(old(Contents()), PathFor(strategy), PayloadFor(strategy, amount), TokenFor(key))
                            else old(Contents())
      ensures IsOutbound(strategy) && reply.Accepted? ==>
                TokenFor(key) in cache && r == Some(Answer(cache[TokenFor(key)]))
      ensures IsOutbound(strategy) && !reply.Accepted? ==> r == Some(Failure(reply))
    {
      if !IsOutbound(strategy) {
        return None;
      }
      var answer;
      if strategy.RetryPayment? || strategy.RetrySilently? {
        answer := CreateOrder(amount, key, reply, applied);
      } else if strategy.RequestNewMandate? {
        answer := CreateMandateSession(amount, key, reply, applied);
      } else {
        answer := CreatePaymentLink(amount, key, reply, applied);
      }
      r := Some(answer);
    }
  }
}
