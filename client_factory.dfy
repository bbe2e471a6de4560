/**
  `ClientFactory`: from a client type (or its name) to a client. Five types have client classes
  but are refused with `NotImplementedException`. The switch also names `QUEUE_TIBCO`, so the
  type list here includes it.
 */
module ClientFactory {
  import opened Wrappers
  import opened Json
  import opened ExecutionSettings
  import opened AbstractClient

  datatype ClientType =
    | Rest
    | RestRestAssured
    | RestUnirest
    | Soap
    | SoapRestAssured
    | QueueKafka
    | QueueTibco
    | DatabaseOracle
    | DatabasePostgres
    | DatabaseCassandra
    | DatabaseMongoDb
    | CacheRedis

  /** The enum constant's `name()`. */
  function Name(t: ClientType): string {
    match t
    case Rest => "REST"
    case RestRestAssured => "REST_RESTASSURED"
    case RestUnirest => "REST_UNIREST"
    case Soap => "SOAP"
    case SoapRestAssured => "SOAP_RESTASSURED"
    case QueueKafka => "QUEUE_KAFKA"
    case QueueTibco => "QUEUE_TIBCO"
    case DatabaseOracle => "DATABASE_ORACLE"
    case DatabasePostgres => "DATABASE_POSTGRES"
    case DatabaseCassandra => "DATABASE_CASSANDRA"
    case DatabaseMongoDb => "DATABASE_MONGODB"
    case CacheRedis => "CACHE_REDIS"
  }

  /** The constant whose `name()` is exactly `name`, if any. */
  function TypeNamed(name: string): (r: Option<ClientType>)
    ensures r.Some? ==> Name(r.value) == name
  {
    if name == "REST" then Some(Rest)
    else if name == "REST_RESTASSURED" then Some(RestRestAssured)
    else if name == "REST_UNIREST" then Some(RestUnirest)
    else if name == "SOAP" then Some(Soap)
    else if name == "SOAP_RESTASSURED" then Some(SoapRestAssured)
    else if name == "QUEUE_KAFKA" then Some(QueueKafka)
    else if name == "QUEUE_TIBCO" then Some(QueueTibco)
    else if name == "DATABASE_ORACLE" then Some(DatabaseOracle)
    else if name == "DATABASE_POSTGRES" then Some(DatabasePostgres)
    else if name == "DATABASE_CASSANDRA" then Some(DatabaseCassandra)
    else if name == "DATABASE_MONGODB" then Some(DatabaseMongoDb)
    else if name == "CACHE_REDIS" then Some(CacheRedis)
    else None
  }

  /** `ClientType.valueOf(name)`: the constant with exactly that name; a null name throws
      NullPointerException, an unknown one IllegalArgumentException. */
  function ValueOf(name: Option<string>): (r: Result<ClientType>)
    ensures r.Ok? ==> name.Some? && Name(r.value) == name.value
    ensures r.Err? ==> (r.error.kind == NullPointer <==> name.None?)
    ensures r.Err? && name.Some? ==> r.error.kind == IllegalArgument
  {
    if name.None? then Err(Exception(NullPointer, "Name is null"))
    else
      match TypeNamed(name.value)
      case Some(t) => Ok(t)
      case None => Err(Exception(IllegalArgument, "No enum constant org.autong.enums.ClientType." + name.value))
  }

  /** Every constant is found by its name. */
  lemma ValueOfName(t: ClientType)
    ensures ValueOf(Some(Name(t))) == Ok(t)
  {
    match t
    case Rest => assert TypeNamed(Name(Rest)) == Some(Rest);
    case RestRestAssured => assert TypeNamed(Name(RestRestAssured)) == Some(RestRestAssured);
    case RestUnirest => assert TypeNamed(Name(RestUnirest)) == Some(RestUnirest);
    case Soap => assert TypeNamed(Name(Soap)) == Some(Soap);
    case SoapRestAssured => assert TypeNamed(Name(SoapRestAssured)) == Some(SoapRestAssured);
    case QueueKafka => assert TypeNamed(Name(QueueKafka)) == Some(QueueKafka);
    case QueueTibco => assert TypeNamed(Name(QueueTibco)) == Some(QueueTibco);
    case DatabaseOracle => assert TypeNamed(Name(DatabaseOracle)) == Some(DatabaseOracle);
    case DatabasePostgres => assert TypeNamed(Name(DatabasePostgres)) == Some(DatabasePostgres);
    case DatabaseCassandra => assert TypeNamed(Name(DatabaseCassandra)) == Some(DatabaseCassandra);
    case DatabaseMongoDb => assert TypeNamed(Name(DatabaseMongoDb)) == Some(DatabaseMongoDb);
    case CacheRedis => assert TypeNamed(Name(CacheRedis)) == Some(CacheRedis);
  }

  /** The switch of `getClient`: which client class a type is built as. */
  function Dispatch(t: ClientType): Result<ClientKind> {
    match t
    case Rest | RestRestAssured => Ok(RestAssuredRest)
    case RestUnirest => Ok(Unirest)
    case Soap | SoapRestAssured => Ok(RestAssuredSoap)
    case DatabaseOracle => Ok(Oracle)
    case QueueKafka => Ok(Kafka)
    case DatabaseCassandra | DatabaseMongoDb | DatabasePostgres | QueueTibco | CacheRedis =>
      Err(Exception(NotImplemented, "Code is not implemented"))
  }

  /** Exactly the Cassandra, MongoDB, Postgres, Tibco and Redis types are refused, and each of the others
      is built as its client class. */
  lemma DispatchRules(t: ClientType)
    ensures Dispatch(t).Err? <==> t in {DatabaseCassandra, DatabaseMongoDb, DatabasePostgres, QueueTibco, CacheRedis}
    ensures Dispatch(t).Err? ==> Dispatch(t).error.kind == NotImplemented
    ensures t in {Rest, RestRestAssured} <==> Dispatch(t) == Ok(RestAssuredRest)
    ensures t == RestUnirest <==> Dispatch(t) == Ok(Unirest)
    ensures t in {Soap, SoapRestAssured} <==> Dispatch(t) == Ok(RestAssuredSoap)
    ensures t == DatabaseOracle <==> Dispatch(t) == Ok(Oracle)
    ensures t == QueueKafka <==> Dispatch(t) == Ok(Kafka)
  {
  }

  /** The client `getClient` builds for a type and a request: its class and its base request (the
      request merged over the class's default request). */
  function ClientSpec(t: ClientType, request: Option<Obj>): Result<(ClientKind, Obj)> {
    var kind :- Dispatch(t);
    var base :- RequestMerge(None, request, Some(DefaultRequest(kind)));
    Ok((kind, base))
  }

  /** The same from the type's name, resolved by `valueOf` first. */
  function ClientSpecByName(name: Option<string>, request: Option<Obj>): Result<(ClientKind, Obj)> {
    var t :- ValueOf(name);
    ClientSpec(t, request)
  }

  /** A built client matches its specification: class, baseline settings, default and base request, and
      empty per-call slots. */
  predicate BuiltAs(c: Client, spec: (ClientKind, Obj), settings: Option<Settings>)
    reads c
  {
    c.kind == spec.0 && c.settings == settings && c.defaultRequest == DefaultRequest(spec.0) &&
    c.baseRequest == Some(spec.1) &&
    c.updatedSettings.None? && c.expectedResult.None? && c.validator.None?
  }

  /** `getClient(clientType, settings, request)`. */
  method GetClient(t: ClientType, settings: Option<Settings>, request: Option<Obj>) returns (r: Result<Client>)
    ensures r.Err? <==> ClientSpec(t, request).Err?
    ensures r.Err? ==> r.error == ClientSpec(t, request).error
    ensures r.Ok? ==> fresh(r.value) && BuiltAs(r.value, ClientSpec(t, request).value, settings)
  {
    var kind := Dispatch(t);
    if kind.Err? {
      return Err(kind.error);
    }
    r := Client.Create(kind.value, settings, DefaultRequest(kind.value), request);
  }

  /** `getClient(String clientType, settings, request)`: the name is resolved first, so an unknown name
      throws before any client is built. */
  method GetClientByName(name: Option<string>, settings: Option<Settings>, request: Option<Obj>)
    returns (r: Result<Client>)
    ensures r.Err? <==> ClientSpecByName(name, request).Err?
    ensures r.Err? ==> r.error == ClientSpecByName(name, request).error
    ensures ValueOf(name).Err? ==> r == Err(ValueOf(name).error)
    ensures r.Ok? ==> fresh(r.value) && BuiltAs(r.value, ClientSpecByName(name, request).value, settings)
  {
    var t := ValueOf(name);
    if t.Err? {
      return Err(t.error);
    }
    r := GetClient(t.value, settings, request);
  }
}
