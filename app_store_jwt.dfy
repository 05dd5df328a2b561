/** The argument handling of the App Store Connect token script: the key
    id read from the key file's name, and how the key path and issuer id
    are chosen from the command line and the environment before a token
    is signed. The environment's issuer id, the default key path and the
    existence of files are inputs. */
module AppStoreJwt {
  import opened Text
  import PurePath

  /** The key id used when the key file's name does not carry one. */
  const DefaultKeyId: string := "MN2S8MNF4A"

  /** The prefix of a key file's stem. */
  const KeyPrefix: string := "AuthKey_"

  /** `key_id_from_path`: the key id is what follows "AuthKey_" in the
      file's stem, or the default id when the stem carries none. It is
      never empty. */
  function KeyIdFromPath(path: string): (r: string)
    ensures r != []
    ensures r == DefaultKeyId || KeyPrefix + r == PurePath.Stem(path)
    ensures StartsWith(PurePath.Stem(path), KeyPrefix) && |PurePath.Stem(path)| > |KeyPrefix| ==>
      KeyPrefix + r == PurePath.Stem(path)
  {
    var name := PurePath.Stem(path);
    if StartsWith(name, KeyPrefix) && |name| > 8 then
      assert name == name[..8] + name[8..];
      name[8..]
    else DefaultKeyId
  }

  /** The key id is read back from a key file named after it, in any
      directory: `AuthKey_<id>.p8` yields `<id>`. */
  lemma KeyIdRoundTrip(dir: string, id: string)
    requires dir == [] || dir[|dir| - 1] == '/'
    requires id != [] && '/' !in id
    ensures KeyIdFromPath(dir + KeyPrefix + id + ".p8") == id
  {
    var stem := KeyPrefix + id;
    var path := dir + KeyPrefix + id + ".p8";
    assert "." + "p8" == ".p8";
    assert path == dir + (stem + "." + "p8");
    assert '/' !in KeyPrefix;
    assert '/' !in stem + "p8";
    PurePath.StemOfFileInDirectory(dir, stem, "p8");
    KeyIdOfStem(path, id);
  }

  /** A stem `AuthKey_<id>` yields `<id>`. */
  lemma KeyIdOfStem(path: string, id: string)
    requires PurePath.Stem(path) == KeyPrefix + id && id != []
    ensures KeyIdFromPath(path) == id
  {
    var stem := KeyPrefix + id;
    assert stem[..8] == KeyPrefix && stem[8..] == id;
  }

  /** Why the script stops without signing. */
  datatype Reason = KeyFileNotFound(path: string) | MissingIssuer

  /** What the script does once its arguments are read: exit with a code,
      or sign a token with this key file, key id and issuer. */
  datatype Launch = Exit(code: int, reason: Reason) | Sign(keyPath: string, keyId: string, issuerId: string)

  /** The argument looks like an issuer id (a 36-character UUID). */
  predicate LooksLikeIssuer(arg: string) {
    |arg| == 36 && '-' in arg
  }

  /** The key path named on the command line: the first argument unless
      there is none or it starts with "-". */
  function KeyPathArgument(args: seq<string>, defaultKeyPath: string): string {
    if args != [] && !StartsWith(args[0], "-") then args[0] else defaultKeyPath
  }

  /** The issuer id, the key path and the key id the script settles on,
      stated case by case: with two or more arguments the issuer is the
      second argument, even an empty one; a single UUID-like argument is
      the issuer and the key path falls back to the default, while the key
      id was already read from that argument; in every other case the
      issuer comes from the environment. */
  datatype Choice = Choice(keyPath: string, keyId: string, issuerId: string)

  function Chosen(args: seq<string>, envIssuer: string, defaultKeyPath: string): Choice {
    var keyId := KeyIdFromPath(KeyPathArgument(args, defaultKeyPath));
    if |args| >= 2 then Choice(KeyPathArgument(args, defaultKeyPath), keyId, args[1])
    else if |args| == 1 && LooksLikeIssuer(args[0]) then Choice(defaultKeyPath, keyId, args[0])
    else Choice(KeyPathArgument(args, defaultKeyPath), keyId, envIssuer)
  }

  /** The outcome: a missing key file is reported first, then a missing
      issuer; both exit with code 1. */
  function Resolution(args: seq<string>, envIssuer: string, defaultKeyPath: string,
                      keyExists: string -> bool): (r: Launch)
    ensures r.Exit? ==> r.code == 1
    ensures r.Exit? && r.reason.KeyFileNotFound? <==>
      !keyExists(Chosen(args, envIssuer, defaultKeyPath).keyPath)
    ensures r.Exit? && r.reason.MissingIssuer? <==>
      keyExists(Chosen(args, envIssuer, defaultKeyPath).keyPath) && Chosen(args, envIssuer, defaultKeyPath).issuerId == []
    ensures r.Sign? ==> keyExists(r.keyPath) && r.issuerId != []
  {
    var c := Chosen(args, envIssuer, defaultKeyPath);
    if !keyExists(c.keyPath) then Exit(1, KeyFileNotFound(c.keyPath))
    else if c.issuerId == [] then Exit(1, MissingIssuer)
    else Sign(c.keyPath, c.keyId, c.issuerId)
  }

  /** The steps of `main` before signing, reassigning the key path and the
      issuer as the script does. */
  method ResolveArguments(args: seq<string>, envIssuer: string, defaultKeyPath: string,
                          keyExists: string -> bool) returns (r: Launch)
    ensures r == Resolution(args, envIssuer, defaultKeyPath, keyExists)
  {
    var keyPath := if args != [] && !StartsWith(args[0], "-") then args[0] else defaultKeyPath;
    var keyId := KeyIdFromPath(keyPath);
    var issuerId: string := [];
    var issuerGiven := false;
    if |args| >= 2 {
      issuerId, issuerGiven := args[1], true;
    } else if |args| == 1 && |args[0]| == 36 && '-' in args[0] {
      issuerId, issuerGiven := args[0], true;
      keyPath := defaultKeyPath;
    }
    if !issuerGiven {
      issuerId := envIssuer;
    }
    if !keyExists(keyPath) {
      return Exit(1, KeyFileNotFound(keyPath));
    }
    if issuerId == [] {
      return Exit(1, MissingIssuer);
    }
    r := Sign(keyPath, keyId, issuerId);
  }

  /** A token is signed exactly when the chosen key file exists and the
      chosen issuer is not empty; it then carries the chosen key path, key
      id and issuer. */
  lemma SignedExactlyWhenChecksPass(args: seq<string>, envIssuer: string, defaultKeyPath: string,
                                    keyExists: string -> bool)
    ensures var c := Chosen(args, envIssuer, defaultKeyPath);
      Resolution(args, envIssuer, defaultKeyPath, keyExists) == Sign(c.keyPath, c.keyId, c.issuerId)
      <==> keyExists(c.keyPath) && c.issuerId != []
    ensures Resolution(args, envIssuer, defaultKeyPath, keyExists).Exit? ==>
      Resolution(args, envIssuer, defaultKeyPath, keyExists).code == 1
  {
  }

  /** A missing key file is reported even when the issuer is missing too. */
  lemma KeyFileCheckedBeforeIssuer(args: seq<string>, envIssuer: string, defaultKeyPath: string,
                                   keyExists: string -> bool)
    requires !keyExists(Chosen(args, envIssuer, defaultKeyPath).keyPath)
    ensures Resolution(args, envIssuer, defaultKeyPath, keyExists)
      == Exit(1, KeyFileNotFound(Chosen(args, envIssuer, defaultKeyPath).keyPath))
  {
  }

  /** With no arguments the default key file, its key id and the
      environment's issuer are used. */
  lemma NoArgumentsUseDefaults(envIssuer: string, defaultKeyPath: string)
    ensures Chosen([], envIssuer, defaultKeyPath)
      == Choice(defaultKeyPath, KeyIdFromPath(defaultKeyPath), envIssuer)
  {
  }

  /** An explicit second argument is the issuer even when it is empty, so
      the environment is not consulted. */
  lemma SecondArgumentIsIssuer(args: seq<string>, envIssuer: string, defaultKeyPath: string)
    requires |args| >= 2
    ensures Chosen(args, envIssuer, defaultKeyPath).issuerId == args[1]
    ensures Chosen(args, envIssuer, defaultKeyPath).keyPath == KeyPathArgument(args, defaultKeyPath)
  {
  }

  /** A key file named `AuthKey_<id>.p8` given as the only argument
      supplies the key path and the key id, and the issuer comes from the
      environment, provided the argument is not UUID-like. */
  lemma SingleKeyFileArgument(dir: string, id: string, envIssuer: string, defaultKeyPath: string)
    requires dir == [] || dir[|dir| - 1] == '/'
    requires dir == [] || dir[0] != '-'
    requires id != [] && '/' !in id
    requires !LooksLikeIssuer(dir + KeyPrefix + id + ".p8")
    ensures var path := dir + KeyPrefix + id + ".p8";
      Chosen([path], envIssuer, defaultKeyPath) == Choice(path, id, envIssuer)
  {
    var path := dir + KeyPrefix + id + ".p8";
    assert path[0] != '-' by {
      if dir == [] {
        assert path[0] == KeyPrefix[0];
      } else {
        assert path[0] == dir[0];
      }
    }
    assert !StartsWith(path, "-");
    assert KeyPathArgument([path], defaultKeyPath) == path;
    KeyIdRoundTrip(dir, id);
  }

  /** A single UUID-like argument is taken as the issuer and the default
      key file is used, but the key id is the one read from the argument:
      a 36-character key file path containing "-" given alone is therefore
      read as an issuer id, and its key id is kept with the default key. */
  lemma UuidArgumentIsIssuer(arg: string, envIssuer: string, defaultKeyPath: string)
    requires LooksLikeIssuer(arg)
    ensures Chosen([arg], envIssuer, defaultKeyPath).issuerId == arg
    ensures Chosen([arg], envIssuer, defaultKeyPath).keyPath == defaultKeyPath
    ensures !StartsWith(arg, "-") ==> Chosen([arg], envIssuer, defaultKeyPath).keyId == KeyIdFromPath(arg)
    ensures StartsWith(arg, "-") ==> Chosen([arg], envIssuer, defaultKeyPath).keyId == KeyIdFromPath(defaultKeyPath)
  {
  }
}
