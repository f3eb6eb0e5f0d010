/** The service layer (app/service.js): the process-wide `initialized`,
    `lock` and `storage` variables with `initialize`, `shutDown` and
    `getInstance`; the two authentication paths of `getInstanceWithAuth`;
    `login`'s reuse-or-create session rule; and the pure data shaping of
    `createWallet`, `getStatus` and `getMainAddresses`. Every answer from a
    collaborator the file does not define (session and copayer lookups,
    signature check, address fetch, wallet fetch) is a parameter. */
module Service {
  import opened Wrappers
  import opened Js
  import opened ErrorDefinitions
  import opened Failures
  import St = Storage
  import P = Partner

  // ---------------------------------------------------------------------
  // Required arguments

  /** The names in `args` that `obj` does not have, in `args` order. */
  function MissingFields(obj: Obj, args: seq<string>): (r: seq<string>)
    ensures forall a :: a in r <==> a in args && a !in obj
    ensures r != [] ==> exists i :: 0 <= i < |args| && r[0] == args[i] && args[i] !in obj &&
                                   forall j :: 0 <= j < i ==> args[j] in obj
  {
    if args == [] then []
    else if args[0] !in obj then [args[0]] + MissingFields(obj, args[1..])
    else
      var rest := MissingFields(obj, args[1..]);
      if rest != [] then
        var i :| 0 <= i < |args[1..]| && rest[0] == args[1..][i] && args[1..][i] !in obj &&
                 forall j :: 0 <= j < i ==> args[1..][j] in obj;
        assert forall j :: 0 <= j < i + 1 ==> args[j] in obj by {
          forall j | 0 <= j < i + 1 ensures args[j] in obj {
            if j > 0 { assert args[j] == args[1..][j - 1]; }
          }
        }
        rest
      else rest
  }

  /** `checkRequired(obj, args, cb)`: no error when every name is present;
      otherwise a ClientError naming the first missing one. The one-argument
      ClientError carries no code here. */
  function CheckRequired(obj: Obj, args: seq<string>): (r: Option<ClientError>)
    ensures r.None? <==> forall a :: a in args ==> a in obj
    ensures r.Some? ==> exists i :: 0 <= i < |args| && args[i] !in obj &&
                                    (forall j :: 0 <= j < i ==> args[j] in obj) &&
                                    r.value == ClientError(None, "Required argument " + args[i] + " missing.")
  {
    var missing := MissingFields(obj, args);
    if missing == [] then None
    else Some(ClientError(None, "Required argument " + missing[0] + " missing."))
  }

  /** `checkRequired` as written: `Utils` is commented out at the top of the
      file, so evaluating `Utils.getMissingFields` throws whatever `obj` holds. */
  function CheckRequiredAsWritten(obj: Obj, args: seq<string>): (r: Failure)
    ensures r.Thrown? && r.exception.ReferenceError?
  {
    Thrown(ReferenceError("Utils"))
  }

  /** Options that carry every required argument are still rejected as written. */
  lemma CheckRequiredAsWrittenRejectsCompleteOptions()
    ensures var opts := map["copayerId" := Str("c1"), "session" := Str("token")];
      && CheckRequired(opts, ["copayerId", "session"]) == None
      && CheckRequiredAsWritten(opts, ["copayerId", "session"]).Thrown?
  {
  }

  // ---------------------------------------------------------------------
  // Sessions

  /** A stored session: its token, its owner and its last-activity stamp.
      Whether it is still valid is decided by the Session model, which is a
      parameter (`isValid`) wherever it is consulted. */
  datatype Session = Session(id: string, copayerId: Value, walletId: Value, updatedOn: int)

  /** `Model.Session.create({copayerId, walletId})` with the token it draws. */
  function NewSession(id: string, copayerId: Value, walletId: Value, nowMillis: int): Session {
    Session(id, copayerId, walletId, nowMillis)
  }

  /** `session.touch()` refreshes the activity stamp. */
  function Touch(s: Session, nowMillis: int): Session {
    s.(updatedOn := nowMillis)
  }

  /** The session `login` stores: the existing one touched when it is there
      and valid, a new one for the copayer and wallet otherwise. */
  function SessionToStore(existing: Option<Session>, isValid: Session -> bool,
                          copayerId: Value, walletId: Value, freshId: string, nowMillis: int): (s: Session)
    ensures s.updatedOn == nowMillis
    ensures existing.Some? && isValid(existing.value) ==>
              s.id == existing.value.id && s.copayerId == existing.value.copayerId && s.walletId == existing.value.walletId
    ensures !(existing.Some? && isValid(existing.value)) ==>
              s.id == freshId && s.copayerId == copayerId && s.walletId == walletId
  {
    if existing.None? || !isValid(existing.value) then NewSession(freshId, copayerId, walletId, nowMillis)
    else Touch(existing.value, nowMillis)
  }

  /** Logging in again while the session stored by the first login is still
      valid returns the same token and creates no second session. */
  lemma LoginReusesValidSession(isValid: Session -> bool, copayerId: Value, walletId: Value,
                                firstId: string, secondId: string, firstNow: int, secondNow: int)
    requires isValid(NewSession(firstId, copayerId, walletId, firstNow))
    ensures var first := SessionToStore(None, isValid, copayerId, walletId, firstId, firstNow);
      var second := SessionToStore(Some(first), isValid, copayerId, walletId, secondId, secondNow);
      first.id == firstId && second.id == firstId && second == Touch(first, secondNow)
  {
  }

  // ---------------------------------------------------------------------
  // Authentication

  /** What `fetchCopayerLookup` yields for a copayer. */
  datatype CopayerLookup = CopayerLookup(walletId: Value, isSupportStaff: Value, requestPubKeys: seq<string>)

  /** The fields `getInstanceWithAuth` sets on the instance it returns. */
  datatype Identity = Identity(copayerId: Value, walletId: Value, isSupportStaff: bool)

  /** `new ClientError(Errors.codes.NOT_AUTHORIZED, message)`. */
  function NotAuthorized(message: string): (e: ClientError)
    ensures e.message == message && e.code.None?
  {
    ClientError(CodeOf("NOT_AUTHORIZED"), message)
  }

  /** The signature path: the copayer must exist, and a copayer who is not
      support staff must sign; staff may name the wallet. */
  function WithSignature(opts: Obj, initialized: bool, copayer: Result<Option<CopayerLookup>, DbError>,
                         signingKey: (Value, Value, seq<string>) -> bool): (r: Result<Identity, Failure>)
    ensures r.Ok? ==> initialized && copayer.Ok? && copayer.value.Some? && r.value.copayerId == Get(opts, "copayerId")
    ensures r.Ok? ==> "copayerId" in opts && "message" in opts && "signature" in opts
  {
    var missing := CheckRequired(opts, ["copayerId", "message", "signature"]);
    if missing.Some? then Err(Client(missing.value))
    else if !initialized then Err(Thrown(TypeError))
    else if copayer.Err? then Err(Database(copayer.error))
    else if copayer.value.None? then Err(Client(NotAuthorized("Copayer not found")))
    else
      var c := copayer.value.value;
      if !Truthy(c.isSupportStaff) then
        if !signingKey(Get(opts, "message"), Get(opts, "signature"), c.requestPubKeys) then
          Err(Client(NotAuthorized("Invalid signature")))
        else Ok(Identity(Get(opts, "copayerId"), c.walletId, false))
      else Ok(Identity(Get(opts, "copayerId"), Or(Get(opts, "walletId"), c.walletId), true))
  }

  /** The session path: the stored session must exist, carry the token and
      be valid, and then the copayer must exist. */
  function WithSession(opts: Obj, initialized: bool, stored: Result<Option<Session>, DbError>,
                       copayer: Result<Option<CopayerLookup>, DbError>, isValid: Session -> bool): (r: Result<Identity, Failure>)
    ensures r.Ok? ==> initialized && copayer.Ok? && copayer.value.Some? && !r.value.isSupportStaff
    ensures r.Ok? ==> "copayerId" in opts && "session" in opts && r.value.copayerId == Get(opts, "copayerId")
    ensures r.Ok? ==> stored.Ok? && stored.value.Some? && isValid(stored.value.value)
  {
    var missing := CheckRequired(opts, ["copayerId", "session"]);
    if missing.Some? then Err(Client(missing.value))
    else if !initialized then Err(Thrown(TypeError))
    else if stored.Err? then Err(Database(stored.error))
    else if !(stored.value.Some? && LooseEq(Str(stored.value.value.id), Get(opts, "session")) && isValid(stored.value.value)) then
      Err(Client(NotAuthorized("Session expired")))
    else if copayer.Err? then Err(Database(copayer.error))
    else if copayer.value.None? then Err(Client(NotAuthorized("Copayer not found")))
    else Ok(Identity(Get(opts, "copayerId"), copayer.value.value.walletId, false))
  }

  /** `getInstanceWithAuth`: a truthy `opts.session` selects the session path. */
  function Authenticate(opts: Obj, initialized: bool, stored: Result<Option<Session>, DbError>,
                        copayer: Result<Option<CopayerLookup>, DbError>,
                        signingKey: (Value, Value, seq<string>) -> bool, isValid: Session -> bool): (r: Result<Identity, Failure>)
    ensures !initialized ==> r.Err?
    ensures r.Ok? ==> "copayerId" in opts && r.value.copayerId == Get(opts, "copayerId")
  {
    if Truthy(Get(opts, "session")) then WithSession(opts, initialized, stored, copayer, isValid)
    else WithSignature(opts, initialized, copayer, signingKey)
  }

  /** Success on the session path means the stored session exists, its id
      is the token and it is valid; the wallet is the copayer's own. */
  lemma SessionPathNeedsValidSession(opts: Obj, initialized: bool, stored: Result<Option<Session>, DbError>,
                                     copayer: Result<Option<CopayerLookup>, DbError>,
                                     signingKey: (Value, Value, seq<string>) -> bool, isValid: Session -> bool)
    requires Truthy(Get(opts, "session"))
    ensures var r := Authenticate(opts, initialized, stored, copayer, signingKey, isValid);
      r.Ok? <==>
        && "copayerId" in opts && initialized
        && stored.Ok? && stored.value.Some? && Str(stored.value.value.id) == Get(opts, "session") && isValid(stored.value.value)
        && copayer.Ok? && copayer.value.Some?
    ensures var r := Authenticate(opts, initialized, stored, copayer, signingKey, isValid);
      r.Ok? ==> r.value == Identity(Get(opts, "copayerId"), copayer.value.value.walletId, false)
  {
  }

  /** Success on the signature path means the copayer exists and either is
      support staff or signed validly; staff may override the wallet. */
  lemma SignaturePathNeedsSignature(opts: Obj, initialized: bool, stored: Result<Option<Session>, DbError>,
                                    copayer: Result<Option<CopayerLookup>, DbError>,
                                    signingKey: (Value, Value, seq<string>) -> bool, isValid: Session -> bool)
    requires !Truthy(Get(opts, "session"))
    ensures var r := Authenticate(opts, initialized, stored, copayer, signingKey, isValid);
      r.Ok? <==>
        && "copayerId" in opts && "message" in opts && "signature" in opts && initialized
        && copayer.Ok? && copayer.value.Some?
        && (Truthy(copayer.value.value.isSupportStaff) ||
            signingKey(Get(opts, "message"), Get(opts, "signature"), copayer.value.value.requestPubKeys))
    ensures var r := Authenticate(opts, initialized, stored, copayer, signingKey, isValid);
      r.Ok? ==>
        var c := copayer.value.value;
        && r.value.copayerId == Get(opts, "copayerId")
        && r.value.isSupportStaff == Truthy(c.isSupportStaff)
        && r.value.walletId == (if Truthy(c.isSupportStaff) then Or(Get(opts, "walletId"), c.walletId) else c.walletId)
  {
  }

  /** The two other refusals of `getInstanceWithAuth`: on the session path
      an absent, mismatched or invalid session is "Session expired"; on the
      signature path a copayer who is not support staff and whose signature
      does not verify is "Invalid signature". Both carry NOT_AUTHORIZED. */
  lemma AuthenticateRefusals(opts: Obj, stored: Result<Option<Session>, DbError>,
                             copayer: Result<Option<CopayerLookup>, DbError>, c: CopayerLookup,
                             signingKey: (Value, Value, seq<string>) -> bool, isValid: Session -> bool)
    ensures Truthy(Get(opts, "session")) && "copayerId" in opts && stored.Ok? &&
            !(stored.value.Some? && LooseEq(Str(stored.value.value.id), Get(opts, "session")) && isValid(stored.value.value)) ==>
              Authenticate(opts, true, stored, copayer, signingKey, isValid) == Err(Client(NotAuthorized("Session expired")))
    ensures !Truthy(Get(opts, "session")) && "copayerId" in opts && "message" in opts && "signature" in opts &&
            !Truthy(c.isSupportStaff) && !signingKey(Get(opts, "message"), Get(opts, "signature"), c.requestPubKeys) ==>
              Authenticate(opts, true, stored, Ok(Some(c)), signingKey, isValid) == Err(Client(NotAuthorized("Invalid signature")))
  {
  }

  /** Once the arguments are present and the process is initialized, a
      copayer the lookup does not find is refused on either path (after a
      valid session on the session path). */
  lemma MissingCopayerNotAuthorized(opts: Obj, stored: Result<Option<Session>, DbError>,
                                    signingKey: (Value, Value, seq<string>) -> bool, isValid: Session -> bool)
    requires "copayerId" in opts
    requires !Truthy(Get(opts, "session")) ==> "message" in opts && "signature" in opts
    requires Truthy(Get(opts, "session")) ==>
      stored.Ok? && stored.value.Some? && Str(stored.value.value.id) == Get(opts, "session") && isValid(stored.value.value)
    ensures Authenticate(opts, true, stored, Ok(None), signingKey, isValid) == Err(Client(NotAuthorized("Copayer not found")))
  {
  }

  // ---------------------------------------------------------------------
  // Process state and instances

  /** The lock the process uses: the one passed in, or a new one. */
  datatype Lock = Provided(name: string) | Created(lockOpts: Value)

  /** The options of `Service.initialize`; absent options have every field absent. */
  datatype InitOptions = InitOptions(lock: Option<Lock>, lockOpts: Value, request: Value, storage: St.Storage?)

  /** An instance of the service. */
  class Service {
    var lock: Option<Lock>
    var storage: St.Storage?
    var notifyTicker: int
    var walletId: Value
    var copayerId: Value
    var copayerIsSupportStaff: bool

    /** `new Service()` on an initialized process: it borrows the process's
        lock and storage; the identity fields start undefined. */
    constructor (lock: Option<Lock>, storage: St.Storage?)
      ensures this.lock == lock && this.storage == storage && notifyTicker == 0
      ensures walletId == Undefined && copayerId == Undefined && !copayerIsSupportStaff
    {
      this.lock := lock;
      this.storage := storage;
      notifyTicker := 0;
      walletId := Undefined;
      copayerId := Undefined;
      copayerIsSupportStaff := false;
    }

    /** `login`: fetch the copayer's session; touch it when it is valid or
        create one for the copayer and wallet when it is not; store it, once;
        answer its id. `stored` lists the sessions handed to `storeSession`. */
    method Login(existing: Result<Option<Session>, DbError>, isValid: Session -> bool,
                 freshId: string, nowMillis: int, storeError: Option<DbError>)
      returns (r: Result<string, Failure>, stored: seq<Session>)
      ensures existing.Err? ==> r == Err(Database(existing.error)) && stored == []
      ensures existing.Ok? ==>
        && stored == [SessionToStore(existing.value, isValid, copayerId, walletId, freshId, nowMillis)]
        && (storeError.Some? ==> r == Err(Database(storeError.value)))
        && (storeError.None? ==> r == Ok(stored[0].id))
    {
      var session: Option<Session>;
      stored := [];
      // getSession
      if existing.Err? {
        return Err(Database(existing.error)), stored;
      }
      session := existing.value;
      // reuse or create
      if session.None? || !isValid(session.value) {
        session := Some(NewSession(freshId, copayerId, walletId, nowMillis));
      } else {
        session := Some(Touch(session.value, nowMillis));
      }
      // storeSession
      stored := stored + [session.value];
      if storeError.Some? {
        return Err(Database(storeError.value)), stored;
      }
      r := Ok(session.value.id);
    }

    /** `joinPartner`: hands the options to the storage's `insertPartner`. */
    method JoinPartner(opts: Option<Obj>, nowMillis: nat, lookupError: Option<DbError>, insertError: Option<DbError>)
      returns (r: Result<St.InsertAck, Failure>)
      modifies storage
      ensures storage == null ==> r == Err(Thrown(TypeError))
      ensures storage != null ==> storage.db == old(storage.db)
      ensures storage != null ==>
        var p := P.Create(opts, nowMillis);
        && (old(storage.db).None? ==>
              r == Err(Thrown(TypeError)) && storage.partners == old(storage.partners))
        && (old(storage.db).Some? && lookupError.Some? ==>
              r == Err(Database(lookupError.value)) && storage.partners == old(storage.partners))
        && (old(storage.db).Some? && lookupError.None? && St.FindOne(old(storage.partners), "partnerId", p.partnerId).Some? ==>
              r == Err(Client(ErrorObject("PARTNER_ALREADY_EXISTS").value)) && storage.partners == old(storage.partners))
        && (old(storage.db).Some? && lookupError.None? && St.FindOne(old(storage.partners), "partnerId", p.partnerId).None? ==>
              && (insertError.Some? ==> r == Err(Database(insertError.value)) && storage.partners == old(storage.partners))
              && (insertError.None? ==> r == Ok(St.InsertAck(p)) && storage.partners == old(storage.partners) + [p]))
      ensures storage != null && St.UniqueIds(old(storage.partners)) ==> St.UniqueIds(storage.partners)
    {
      if storage == null {
        return Err(Thrown(TypeError));
      }
      r := storage.InsertPartner(opts, nowMillis, lookupError, insertError);
    }

    /** `getMainAddresses`: the wallet's addresses without the change
        addresses, reversed in place when asked, then cut to the limit. */
    method GetMainAddresses(query: AddressQuery, fetched: Result<seq<Address>, DbError>)
      returns (r: Result<seq<Address>, Failure>)
      ensures fetched.Err? ==> r == Err(Database(fetched.error))
      ensures fetched.Ok? ==> r == Ok(SelectMain(fetched.value, Truthy(query.reverse), query.limit))
    {
      if fetched.Err? {
        return Err(Database(fetched.error));
      }
      var onlyMain := MainOnly(fetched.value);
      if Truthy(query.reverse) {
        var buffer := new Address[|onlyMain|](i requires 0 <= i < |onlyMain| => onlyMain[i]);
        assert buffer[..] == onlyMain;
        ReverseInPlace(buffer);
        onlyMain := buffer[..];
      }
      if query.limit.Some? && query.limit.value > 0 {
        onlyMain := onlyMain[..Min(query.limit.value, |onlyMain|)];
      }
      r := Ok(onlyMain);
    }
  }

  /** The module-level state of the service: `initialized`, `lock`, `storage`. */
  class Process {
    var initialized: bool
    var lock: Option<Lock>
    var storage: St.Storage?

    /** Only a connected storage ever marks the process initialized. */
    ghost predicate Valid()
      reads this
    {
      initialized ==> storage != null
    }

    /** The state at load time. */
    constructor ()
      ensures Valid() && !initialized && lock.None? && storage == null
    {
      initialized := false;
      lock := None;
      storage := null;
    }

    /** `Service.initialize`: takes the given lock or makes one; with a
        storage given, adopts it and leaves `initialized` as it was; otherwise
        connects a new storage and marks the process initialized only when
        that connection succeeds. A truthy `opts.request` is assigned to an
        undeclared variable, which throws in strict mode. `collection` is what
        the new storage's handle reaches. */
    method Initialize(opts: InitOptions, collection: seq<P.Partner>, dial: Result<St.Handle, DbError>)
      returns (r: Result<(), Failure>)
      requires Valid()
      modifies this
      ensures Valid()
      ensures lock == Some(if opts.lock.Some? then opts.lock.value else Created(opts.lockOpts))
      ensures Truthy(opts.request) ==>
        r == Err(Thrown(ReferenceError("request"))) && initialized == old(initialized) && storage == old(storage)
      ensures !Truthy(opts.request) && opts.storage != null ==>
        r == Ok(()) && storage == opts.storage && initialized == old(initialized)
      ensures !Truthy(opts.request) && opts.storage == null && dial.Err? ==>
        r == Err(Database(dial.error)) && initialized == old(initialized) && storage == old(storage)
      ensures !Truthy(opts.request) && opts.storage == null && dial.Ok? ==>
        && r == Ok(()) && initialized && storage != null && fresh(storage)
        && storage.db == Some(dial.value) && storage.partners == collection
    {
      lock := Some(if opts.lock.Some? then opts.lock.value else Created(opts.lockOpts));
      if Truthy(opts.request) {
        return Err(Thrown(ReferenceError("request")));
      }
      if opts.storage != null {
        storage := opts.storage;
        return Ok(());
      }
      var newStorage := new St.Storage(None, collection);
      var connected := newStorage.Connect(dial);
      if connected.Err? {
        return connected;
      }
      storage := newStorage;
      initialized := true;
      r := Ok(());
    }

    /** `Service.shutDown`: nothing to do unless initialized; otherwise
        disconnects the storage and clears `initialized` only when that
        succeeds. */
    method ShutDown(closeError: Option<DbError>) returns (r: Result<(), Failure>)
      requires Valid()
      modifies this, storage
      ensures Valid() && storage == old(storage) && lock == old(lock)
      ensures !old(initialized) ==>
        && r == Ok(()) && !initialized
        && (storage != null ==> storage.db == old(storage.db) && storage.partners == old(storage.partners))
      ensures old(initialized) ==>
        && storage.partners == old(storage.partners)
        && (old(storage.db).None? ==> r == Err(Thrown(TypeError)) && initialized && storage.db == old(storage.db))
        && (old(storage.db).Some? && closeError.Some? ==>
              r == Err(Database(closeError.value)) && initialized && storage.db == old(storage.db))
        && (old(storage.db).Some? && closeError.None? ==> r == Ok(()) && !initialized && storage.db.None?)
    {
      if !initialized {
        return Ok(());
      }
      r := storage.Disconnect(closeError);
      if r.Ok? {
        initialized := false;
      }
    }

    /** `Service.getInstance`: an instance when initialized, null otherwise
        (the constructor's error is caught and logged). */
    method GetInstance() returns (s: Service?)
      ensures (s == null) <==> !initialized
      ensures s != null ==>
        && fresh(s) && s.lock == lock && s.storage == storage && s.notifyTicker == 0
        && s.walletId == Undefined && s.copayerId == Undefined && !s.copayerIsSupportStaff
    {
      if !initialized {
        return null;
      }
      s := new Service(lock, storage);
    }

    /** The inner `withSignature` of `getInstanceWithAuth`. */
    method AuthenticateBySignature(opts: Obj, copayer: Result<Option<CopayerLookup>, DbError>,
                                   signingKey: (Value, Value, seq<string>) -> bool)
      returns (r: Result<Service, Failure>)
      ensures var a := WithSignature(opts, initialized, copayer, signingKey);
        && (r.Ok? <==> a.Ok?)
        && (r.Err? ==> r.error == a.error)
        && (r.Ok? ==>
              && fresh(r.value) && r.value.lock == lock && r.value.storage == storage
              && r.value.copayerId == a.value.copayerId && r.value.walletId == a.value.walletId
              && r.value.copayerIsSupportStaff == a.value.isSupportStaff)
    {
      var missing := CheckRequired(opts, ["copayerId", "message", "signature"]);
      if missing.Some? {
        return Err(Client(missing.value));
      }
      var server := GetInstance();
      if server == null {
        return Err(Thrown(TypeError));
      }
      if copayer.Err? {
        return Err(Database(copayer.error));
      }
      if copayer.value.None? {
        return Err(Client(NotAuthorized("Copayer not found")));
      }
      var c := copayer.value.value;
      if !Truthy(c.isSupportStaff) {
        if !signingKey(Get(opts, "message"), Get(opts, "signature"), c.requestPubKeys) {
          return Err(Client(NotAuthorized("Invalid signature")));
        }
        server.walletId := c.walletId;
      } else {
        server.walletId := Or(Get(opts, "walletId"), c.walletId);
        server.copayerIsSupportStaff := true;
      }
      server.copayerId := Get(opts, "copayerId");
      r := Ok(server);
    }

    /** The inner `withSession` of `getInstanceWithAuth`. */
    method AuthenticateBySession(opts: Obj, storedSession: Result<Option<Session>, DbError>,
                                 copayer: Result<Option<CopayerLookup>, DbError>, isValid: Session -> bool)
      returns (r: Result<Service, Failure>)
      ensures var a := WithSession(opts, initialized, storedSession, copayer, isValid);
        && (r.Ok? <==> a.Ok?)
        && (r.Err? ==> r.error == a.error)
        && (r.Ok? ==>
              && fresh(r.value) && r.value.lock == lock && r.value.storage == storage
              && r.value.copayerId == a.value.copayerId && r.value.walletId == a.value.walletId
              && r.value.copayerIsSupportStaff == a.value.isSupportStaff)
    {
      var missing := CheckRequired(opts, ["copayerId", "session"]);
      if missing.Some? {
        return Err(Client(missing.value));
      }
      var server := GetInstance();
      if server == null {
        return Err(Thrown(TypeError));
      }
      if storedSession.Err? {
        return Err(Database(storedSession.error));
      }
      var s := storedSession.value;
      var sessionValid := s.Some? && LooseEq(Str(s.value.id), Get(opts, "session")) && isValid(s.value);
      if !sessionValid {
        return Err(Client(NotAuthorized("Session expired")));
      }
      if copayer.Err? {
        return Err(Database(copayer.error));
      }
      if copayer.value.None? {
        return Err(Client(NotAuthorized("Copayer not found")));
      }
      server.copayerId := Get(opts, "copayerId");
      server.walletId := copayer.value.value.walletId;
      r := Ok(server);
    }

    /** `Service.getInstanceWithAuth`: a truthy `opts.session` selects the
        session path. The instance carries the identity `Authenticate`
        grants, or the call fails as `Authenticate` says; a null instance
        (process not initialized) is dereferenced, which throws. */
    method GetInstanceWithAuth(opts: Obj, storedSession: Result<Option<Session>, DbError>,
                               copayer: Result<Option<CopayerLookup>, DbError>,
                               signingKey: (Value, Value, seq<string>) -> bool, isValid: Session -> bool)
      returns (r: Result<Service, Failure>)
      ensures var a := Authenticate(opts, initialized, storedSession, copayer, signingKey, isValid);
        && (r.Ok? <==> a.Ok?)
        && (r.Err? ==> r.error == a.error)
        && (r.Ok? ==>
              && fresh(r.value) && r.value.lock == lock && r.value.storage == storage
              && r.value.copayerId == a.value.copayerId && r.value.walletId == a.value.walletId
              && r.value.copayerIsSupportStaff == a.value.isSupportStaff)
    {
      if Truthy(Get(opts, "session")) {
        r := AuthenticateBySession(opts, storedSession, copayer, isValid);
      } else {
        r := AuthenticateBySignature(opts, copayer, signingKey);
      }
    }
  }

  // ---------------------------------------------------------------------
  // Main addresses

  datatype Address = Address(address: string, walletId: Value, isChange: Value)

  /** The options of `getMainAddresses`; absent options have both fields absent. */
  datatype AddressQuery = AddressQuery(reverse: Value, limit: Option<int>)

  /** The lodash matcher `{isChange: true}`. */
  predicate IsChange(a: Address) {
    a.isChange == Bool(true)
  }

  /** `_.reject(addresses, {isChange: true})` */
  function MainOnly(addresses: seq<Address>): (r: seq<Address>)
    ensures forall a :: a in r <==> a in addresses && !IsChange(a)
    ensures |r| <= |addresses|
  {
    if addresses == [] then []
    else if IsChange(addresses[0]) then MainOnly(addresses[1..])
    else [addresses[0]] + MainOnly(addresses[1..])
  }

  /** Rejecting change addresses commutes with concatenation: the result is
      exactly the non-change addresses in their original order. */
  lemma {:induction false} MainOnlyAppend(a: seq<Address>, b: seq<Address>)
    ensures MainOnly(a + b) == MainOnly(a) + MainOnly(b)
  {
    if a == [] {
      assert a + b == b;
    } else {
      assert (a + b)[0] == a[0];
      assert (a + b)[1..] == a[1..] + b;
      MainOnlyAppend(a[1..], b);
    }
  }

  /** The elements of `s` in the opposite order. */
  function Reversed<T>(s: seq<T>): (r: seq<T>)
    ensures |r| == |s|
    ensures forall k :: 0 <= k < |s| ==> r[k] == s[|s| - 1 - k]
  {
    seq(|s|, k requires 0 <= k < |s| => s[|s| - 1 - k])
  }

  /** The first `m` elements of the reversal are the last `m`, newest first. */
  lemma ReversedPrefix<T>(s: seq<T>, m: int)
    requires 0 <= m <= |s|
    ensures Reversed(s)[..m] == Reversed(s[|s| - m..])
  {
    var t := s[|s| - m..];
    assert forall k :: 0 <= k < m ==> Reversed(s)[..m][k] == s[|s| - 1 - k] == t[m - 1 - k];
  }

  lemma ReversedSameElements<T>(s: seq<T>)
    ensures forall x :: x in Reversed(s) <==> x in s
  {
    forall x | x in s ensures x in Reversed(s) {
      var i :| 0 <= i < |s| && s[i] == x;
      assert Reversed(s)[|s| - 1 - i] == x;
    }
  }

  /** `Array.prototype.reverse` on the buffer. */
  method ReverseInPlace<T>(a: array<T>)
    modifies a
    ensures a[..] == Reversed(old(a[..]))
  {
    var lo, hi := 0, a.Length - 1;
    while lo < hi
      invariant 0 <= lo && hi == a.Length - 1 - lo && lo <= a.Length
      invariant forall k :: 0 <= k < lo ==> a[k] == old(a[a.Length - 1 - k]) && a[a.Length - 1 - k] == old(a[k])
      invariant forall k :: lo <= k <= hi ==> a[k] == old(a[k])
    {
      a[lo], a[hi] := a[hi], a[lo];
      lo, hi := lo + 1, hi - 1;
    }
  }

  function Min(a: int, b: int): int {
    if a <= b then a else b
  }

  /** What `getMainAddresses` answers for the fetched addresses. */
  function SelectMain(addresses: seq<Address>, reverse: bool, limit: Option<int>): (r: seq<Address>)
    ensures |r| <= |MainOnly(addresses)|
  {
    var onlyMain := MainOnly(addresses);
    var ordered := if reverse then Reversed(onlyMain) else onlyMain;
    if limit.Some? && limit.value > 0 then ordered[..Min(limit.value, |ordered|)] else ordered
  }

  /** No change address is ever returned, and everything returned was fetched. */
  lemma SelectMainDrawsMainAddresses(addresses: seq<Address>, reverse: bool, limit: Option<int>)
    ensures forall a :: a in SelectMain(addresses, reverse, limit) ==> a in addresses && !IsChange(a)
  {
    var onlyMain := MainOnly(addresses);
    ReversedSameElements(onlyMain);
    var ordered := if reverse then Reversed(onlyMain) else onlyMain;
    forall a | a in SelectMain(addresses, reverse, limit) ensures a in ordered {
      if limit.Some? && limit.value > 0 {
        var m := Min(limit.value, |ordered|);
        assert ordered == ordered[..m] + ordered[m..];
      }
    }
  }

  /** Without reversal and without a positive limit: the non-change
      addresses, in fetched order; with a positive limit k: the first
      min(k, count) of them. */
  lemma SelectMainForward(addresses: seq<Address>, limit: Option<int>)
    ensures limit.None? || limit.value <= 0 ==> SelectMain(addresses, false, limit) == MainOnly(addresses)
    ensures limit.Some? && limit.value > 0 ==>
      var m := Min(limit.value, |MainOnly(addresses)|);
      SelectMain(addresses, false, limit) == MainOnly(addresses)[..m] && |SelectMain(addresses, false, limit)| == m
  {
  }

  /** Reversal comes before truncation: reverse with limit k gives the last
      min(k, count) main addresses, newest first. */
  lemma SelectMainNewestFirst(addresses: seq<Address>, k: int)
    requires k > 0
    ensures var onlyMain := MainOnly(addresses);
      var m := Min(k, |onlyMain|);
      SelectMain(addresses, true, Some(k)) == Reversed(onlyMain[|onlyMain| - m..])
  {
    var onlyMain := MainOnly(addresses);
    ReversedPrefix(onlyMain, Min(k, |onlyMain|));
  }

  /** Addresses [A (change), B, C, D], reversed and limited to 2, give [D, C]. */
  lemma SelectMainExample(a: Address, b: Address, c: Address, d: Address)
    requires IsChange(a) && !IsChange(b) && !IsChange(c) && !IsChange(d)
    ensures SelectMain([a, b, c, d], true, Some(2)) == [d, c]
  {
    var addresses := [a, b, c, d];
    assert MainOnly(addresses[3..]) == [d] by { assert addresses[3..][1..] == []; }
    assert MainOnly(addresses[2..]) == [c, d] by { assert addresses[2..][1..] == addresses[3..]; }
    assert MainOnly(addresses[1..]) == [b, c, d] by { assert addresses[1..][1..] == addresses[2..]; }
    var onlyMain := MainOnly(addresses);
    assert onlyMain == [b, c, d];
    var reversed := Reversed(onlyMain);
    assert reversed[0] == d && reversed[1] == c;
    assert SelectMain(addresses, true, Some(2)) == reversed[..2];
  }

  // ---------------------------------------------------------------------
  // Wallet status: field redaction

  /** A wallet document: its own fields and its copayers' records. */
  datatype Wallet = Wallet(fields: Obj, copayers: seq<Obj>)

  const WalletExtendedKeys: set<string> := {"publicKeyRing", "pubKey", "addressManager"}
  const CopayerExtendedKeys: set<string> := {"xPubKey", "requestPubKey", "signature", "addressManager", "customData"}

  /** The first `_.map`: every copayer but the requester loses `customData`. */
  function HideOthersCustomData(copayers: seq<Obj>, requester: Value): (r: seq<Obj>)
    ensures |r| == |copayers|
  {
    if copayers == [] then []
    else
      var c := copayers[0];
      [if LooseEq(Get(c, "id"), requester) then c else c - {"customData"}] +
      HideOthersCustomData(copayers[1..], requester)
  }

  /** `_.map(copayers, c => _.omit(c, keys))` */
  function OmitEach(copayers: seq<Obj>, keys: set<string>): (r: seq<Obj>)
    ensures |r| == |copayers|
  {
    if copayers == [] then [] else [copayers[0] - keys] + OmitEach(copayers[1..], keys)
  }

  lemma {:induction false} HideOthersCustomDataAt(copayers: seq<Obj>, requester: Value, i: int)
    requires 0 <= i < |copayers|
    ensures HideOthersCustomData(copayers, requester)[i] ==
      if LooseEq(Get(copayers[i], "id"), requester) then copayers[i] else copayers[i] - {"customData"}
  {
    if i > 0 {
      HideOthersCustomDataAt(copayers[1..], requester, i - 1);
    }
  }

  lemma {:induction false} OmitEachAt(copayers: seq<Obj>, keys: set<string>, i: int)
    requires 0 <= i < |copayers|
    ensures OmitEach(copayers, keys)[i] == copayers[i] - keys
  {
    if i > 0 {
      OmitEachAt(copayers[1..], keys, i - 1);
    }
  }

  /** The wallet branch of `getStatus`. */
  function Redact(w: Wallet, requester: Value, includeExtendedInfo: Value): (r: Wallet)
    ensures |r.copayers| == |w.copayers|
    ensures r.fields.Keys <= w.fields.Keys
    ensures forall k :: k in r.fields ==> r.fields[k] == w.fields[k]
  {
    var copayers := HideOthersCustomData(w.copayers, requester);
    if Truthy(includeExtendedInfo) then Wallet(w.fields, copayers)
    else Wallet(w.fields - WalletExtendedKeys, OmitEach(copayers, CopayerExtendedKeys))
  }

  /** With extended info: the wallet's fields are untouched, the copayer list
      keeps its length and order, the requester's record is returned as is
      and every other copayer loses exactly `customData`. */
  lemma RedactWithExtendedInfo(w: Wallet, requester: Value, includeExtendedInfo: Value)
    requires Truthy(includeExtendedInfo)
    ensures var r := Redact(w, requester, includeExtendedInfo);
      && r.fields == w.fields
      && |r.copayers| == |w.copayers|
      && forall i :: 0 <= i < |w.copayers| ==>
           r.copayers[i] == if LooseEq(Get(w.copayers[i], "id"), requester) then w.copayers[i]
                            else w.copayers[i] - {"customData"}
  {
    forall i | 0 <= i < |w.copayers|
      ensures Redact(w, requester, includeExtendedInfo).copayers[i] ==
        if LooseEq(Get(w.copayers[i], "id"), requester) then w.copayers[i] else w.copayers[i] - {"customData"}
    {
      HideOthersCustomDataAt(w.copayers, requester, i);
    }
  }

  /** Without extended info: the wallet loses `publicKeyRing`, `pubKey` and
      `addressManager`, and every copayer, the requester included, loses the
      five sensitive fields; every other field keeps its value. */
  lemma RedactWithoutExtendedInfo(w: Wallet, requester: Value, includeExtendedInfo: Value)
    requires !Truthy(includeExtendedInfo)
    ensures var r := Redact(w, requester, includeExtendedInfo);
      && r.fields.Keys == w.fields.Keys - WalletExtendedKeys
      && (forall k :: k in r.fields ==> r.fields[k] == w.fields[k])
      && |r.copayers| == |w.copayers|
      && forall i :: 0 <= i < |w.copayers| ==>
           && r.copayers[i].Keys == w.copayers[i].Keys - CopayerExtendedKeys
           && forall k :: k in r.copayers[i] ==> r.copayers[i][k] == w.copayers[i][k]
  {
    var hidden := HideOthersCustomData(w.copayers, requester);
    forall i | 0 <= i < |w.copayers|
      ensures Redact(w, requester, includeExtendedInfo).copayers[i] == w.copayers[i] - CopayerExtendedKeys
    {
      HideOthersCustomDataAt(w.copayers, requester, i);
      OmitEachAt(hidden, CopayerExtendedKeys, i);
    }
  }

  /** The wallet step of `getStatus`: a fetch error is passed on; a missing
      wallet is reported with the undefined `Errors.WALLET_NOT_FOUND`, i.e.
      as no error, so the redaction reads `copayers` of undefined and throws. */
  function StatusWallet(fetched: Result<Option<Wallet>, DbError>, requester: Value, opts: Option<Obj>): (r: Result<Wallet, Failure>)
    ensures fetched.Err? ==> r == Err(Database(fetched.error))
    ensures fetched == Ok(None) ==> r == Err(Thrown(TypeError))
    ensures fetched.Ok? && fetched.value.Some? ==>
      r == Ok(Redact(fetched.value.value, requester, Get(opts.GetOr(map[]), "includeExtendedInfo")))
  {
    if fetched.Err? then Err(Database(fetched.error))
    else if fetched.value.None? then Err(Thrown(TypeError))
    else Ok(Redact(fetched.value.value, requester, Get(opts.GetOr(map[]), "includeExtendedInfo")))
  }

  // ---------------------------------------------------------------------
  // Wallet creation: validation and normalisation

  datatype DerivationStrategy = BIP44 | BIP45
  datatype AddressType = P2PKH | P2SH

  /** The parameters `createWallet` builds its wallet from. */
  datatype WalletSettings = WalletSettings(
    id: Value, name: Value, m: Value, n: Value, coin: string, network: string,
    singleAddress: bool, supportBIP44AndP2PKH: bool,
    derivationStrategy: DerivationStrategy, addressType: AddressType)

  /** `Utils.checkValueInCollection`: a string among the allowed values. */
  predicate InCollection(v: Value, allowed: set<string>) {
    v.Str? && v.s in allowed
  }

  /** `_.isBoolean(v) ? v : true` */
  function SupportFlag(v: Value): bool {
    if IsBoolean(v) then v.b else true
  }

  /** The checks and defaults of `createWallet` up to the wallet's
      construction. The default coin, the allowed coins and networks and the
      copayer-limit rule come from modules outside this file. */
  function WalletSettingsFor(opts: Obj, defaultCoin: Value, coins: set<string>, networks: set<string>,
                             copayerLimitsOk: (Value, Value) -> bool): (r: Result<WalletSettings, Failure>)
    ensures r.Ok? ==> InCollection(Str(r.value.coin), coins) && InCollection(Str(r.value.network), networks)
  {
    var missing := CheckRequired(opts, ["name", "m", "n", "pubKey"]);
    if missing.Some? then Err(Client(missing.value))
    else if IsEmpty(Get(opts, "name")) then Err(Client(ClientError(None, "Invalid wallet name")))
    else if !copayerLimitsOk(Get(opts, "m"), Get(opts, "n")) then
      Err(Client(ClientError(None, "Invalid combination of required copayers / total copayers")))
    else
      var coin := Or(Get(opts, "coin"), defaultCoin);
      if !InCollection(coin, coins) then Err(Client(ClientError(None, "Invalid coin")))
      else
        var network := Or(Get(opts, "network"), Str("livenet"));
        if !InCollection(network, networks) then Err(Client(ClientError(None, "Invalid network")))
        else
          var support := SupportFlag(Get(opts, "supportBIP44AndP2PKH"));
          var derivation := if support then BIP44 else BIP45;
          var addressType := if Get(opts, "n") == Num(1) && support then P2PKH else P2SH;
          Ok(WalletSettings(Get(opts, "id"), Get(opts, "name"), Get(opts, "m"), Get(opts, "n"),
                            coin.s, network.s, Truthy(Get(opts, "singleAddress")), support, derivation, addressType))
  }

  /** An accepted wallet: the network defaults to "livenet"; the modern
      scheme is on unless `supportBIP44AndP2PKH` is the boolean false; the
      derivation is BIP44 exactly when it is on; the address type is P2PKH
      exactly for a single-copayer wallet with it on, so P2PKH implies BIP44. */
  lemma WalletSchemePolicy(opts: Obj, defaultCoin: Value, coins: set<string>, networks: set<string>,
                           copayerLimitsOk: (Value, Value) -> bool)
    ensures var r := WalletSettingsFor(opts, defaultCoin, coins, networks, copayerLimitsOk);
      r.Ok? ==>
        var w := r.value;
        && Str(w.network) == (if Truthy(Get(opts, "network")) then Get(opts, "network") else Str("livenet"))
        && (w.supportBIP44AndP2PKH <==> Get(opts, "supportBIP44AndP2PKH") != Bool(false))
        && (w.derivationStrategy == BIP44 <==> w.supportBIP44AndP2PKH)
        && (w.addressType == P2PKH <==> Get(opts, "n") == Num(1) && w.supportBIP44AndP2PKH)
        && (w.addressType == P2PKH ==> w.derivationStrategy == BIP44)
  {
  }

  /** An accepted wallet had its four required arguments and a non-empty
      name, and passed the copayer-limit rule; its coin is the given one or
      the default, and `singleAddress` is the truthiness of the option. A
      missing required argument is reported as a client error naming it. */
  lemma WalletValidationAndDefaults(opts: Obj, defaultCoin: Value, coins: set<string>, networks: set<string>,
                                    copayerLimitsOk: (Value, Value) -> bool)
    ensures var r := WalletSettingsFor(opts, defaultCoin, coins, networks, copayerLimitsOk);
      r.Ok? ==>
        && "name" in opts && "m" in opts && "n" in opts && "pubKey" in opts
        && !IsEmpty(Get(opts, "name"))
        && copayerLimitsOk(Get(opts, "m"), Get(opts, "n"))
        && Str(r.value.coin) == Or(Get(opts, "coin"), defaultCoin)
        && r.value.singleAddress == Truthy(Get(opts, "singleAddress"))
    ensures var r := WalletSettingsFor(opts, defaultCoin, coins, networks, copayerLimitsOk);
      !("name" in opts && "m" in opts && "n" in opts && "pubKey" in opts) ==>
        && r.Err? && r.error.Client?
        && exists a :: a in ["name", "m", "n", "pubKey"] && a !in opts &&
                       r.error.error.message == "Required argument " + a + " missing."
  {
  }

  /** An m/n combination the copayer-limit rule refuses is reported before
      any default is applied, whatever the coin and network. */
  lemma WalletLimitsCheckedFirst(opts: Obj, defaultCoin: Value, coins: set<string>, networks: set<string>,
                                 copayerLimitsOk: (Value, Value) -> bool)
    requires "name" in opts && "m" in opts && "n" in opts && "pubKey" in opts
    requires !IsEmpty(Get(opts, "name"))
    requires !copayerLimitsOk(Get(opts, "m"), Get(opts, "n"))
    ensures WalletSettingsFor(opts, defaultCoin, coins, networks, copayerLimitsOk) ==
      Err(Client(ClientError(None, "Invalid combination of required copayers / total copayers")))
  {
  }
}
