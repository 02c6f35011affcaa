/**
  The method generator: each entry of the call table names a method and a
  space-separated string of type tags; the generator resolves each tag to a
  coercer and installs the method under its own name and under its lower-case
  name. The installed table is modelled as a map from name to `RpcMethod`.
*/
module MethodTable {
  import opened JsValues
  import opened Coercion

  /** Splitting at every single space: "" gives [""] and "a  b" gives ["a", "", "b"]. */
  function Split(s: string): (parts: seq<string>)
    ensures |parts| >= 1
    ensures forall k | 0 <= k < |parts| :: ' ' !in parts[k]
  {
    if |s| == 0 then [""]
    else
      var rest := Split(s[1..]);
      if s[0] == ' ' then [""] + rest
      else [[s[0]] + rest[0]] + rest[1..]
  }

  /** Joining parts with one space between neighbours. */
  function JoinWithSpace(parts: seq<string>): string
    requires |parts| >= 1
  {
    if |parts| == 1 then parts[0] else parts[0] + " " + JoinWithSpace(parts[1..])
  }

  function CountSpaces(s: string): nat {
    if |s| == 0 then 0 else (if s[0] == ' ' then 1 else 0) + CountSpaces(s[1..])
  }

  /** Splitting loses nothing: joining the parts gives back the tag string. */
  lemma {:induction false} JoinOfSplit(s: string)
    ensures JoinWithSpace(Split(s)) == s
  {
    if |s| > 0 {
      var rest := Split(s[1..]);
      JoinOfSplit(s[1..]);
      if s[0] == ' ' {
        assert Split(s) == [""] + rest;
        assert Split(s)[1..] == rest;
        assert s == [' '] + s[1..];
      } else if |rest| == 1 {
        assert Split(s) == [[s[0]] + rest[0]];
        assert s == [s[0]] + s[1..];
      } else {
        var head := [s[0]] + rest[0];
        assert Split(s) == [head] + rest[1..];
        assert Split(s)[1..] == rest[1..];
        assert JoinWithSpace(rest) == rest[0] + " " + JoinWithSpace(rest[1..]);
        assert s == [s[0]] + s[1..];
      }
    }
  }

  /** Space-free parts are recovered by splitting their join. */
  lemma {:induction false} SplitOfJoin(parts: seq<string>)
    requires |parts| >= 1
    requires forall k | 0 <= k < |parts| :: ' ' !in parts[k]
    ensures Split(JoinWithSpace(parts)) == parts
  {
    if |parts| == 1 {
      SplitOfSpaceFree(parts[0]);
    } else {
      SplitOfJoin(parts[1..]);
      SplitAfterWord(parts[0], JoinWithSpace(parts[1..]));
      assert parts == [parts[0]] + parts[1..];
    }
  }

  lemma {:induction false} SplitOfSpaceFree(w: string)
    requires ' ' !in w
    ensures Split(w) == [w]
  {
    if |w| > 0 {
      assert ' ' !in w[1..] by {
        forall k | 0 <= k < |w[1..]| ensures w[1..][k] != ' ' { assert w[1..][k] == w[k + 1]; }
      }
      SplitOfSpaceFree(w[1..]);
      assert w == [w[0]] + w[1..];
    }
  }

  lemma {:induction false} SplitAfterWord(w: string, tail: string)
    requires ' ' !in w
    ensures Split(w + " " + tail) == [w] + Split(tail)
  {
    if |w| == 0 {
      assert (w + " " + tail)[1..] == tail;
    } else {
      assert ' ' !in w[1..] by {
        forall k | 0 <= k < |w[1..]| ensures w[1..][k] != ' ' { assert w[1..][k] == w[k + 1]; }
      }
      SplitAfterWord(w[1..], tail);
      assert (w + " " + tail)[1..] == w[1..] + " " + tail;
      assert [w[0]] + w[1..] == w;
    }
  }

  /** There is one token per space, plus one. */
  lemma {:induction false} SplitCount(s: string)
    ensures |Split(s)| == CountSpaces(s) + 1
  {
    if |s| > 0 {
      SplitCount(s[1..]);
    }
  }

  /** A tag string's entries after the in-place rewrite: first tokens, then coercers. */
  datatype SpecEntry = Token(text: string) | Coercer(tag: Tag)

  /**
    The generator's inner loop: overwrites every token of `spec` by the coercer
    it names, `str` for unknown tokens.
  */
  method ResolveSpec(spec: array<SpecEntry>)
    requires forall k | 0 <= k < spec.Length :: spec[k].Token?
    modifies spec
    ensures forall k | 0 <= k < spec.Length :: spec[k] == Coercer(TagOf(old(spec[k]).text))
  {
    var i := 0;
    while i < spec.Length
      invariant 0 <= i <= spec.Length
      invariant forall k | 0 <= k < i :: spec[k] == Coercer(TagOf(old(spec[k]).text))
      invariant forall k | i <= k < spec.Length :: spec[k] == old(spec[k])
    {
      spec[i] := Coercer(TagOf(spec[i].text));
      i := i + 1;
    }
  }

  /** A generated method: the (lower-case) name it sends and one coercer per token of its tag string. */
  datatype RpcMethod = RpcMethod(name: string, tags: seq<Tag>)

  /** The coercers a tag string resolves to, position by position. */
  function TagsOf(tagString: string): (tags: seq<Tag>)
    ensures |tags| == |Split(tagString)|
    ensures forall k | 0 <= k < |tags| :: tags[k] == TagOf(Split(tagString)[k])
  {
    var tokens := Split(tagString);
    seq(|tokens|, k requires 0 <= k < |tokens| => TagOf(tokens[k]))
  }

  function MethodOf(key: string, tagString: string): RpcMethod {
    RpcMethod(Lower(key), TagsOf(tagString))
  }

  /** Installs one entry under its own name and its lower-case name. */
  function Install(table: map<string, RpcMethod>, key: string, tagString: string): map<string, RpcMethod> {
    var m := MethodOf(key, tagString);
    table[key := m][Lower(key) := m]
  }

  /** The table after installing the entries in order; later entries overwrite earlier ones. */
  function TableOf(entries: seq<(string, string)>): map<string, RpcMethod> {
    if |entries| == 0 then map[]
    else
      var last := entries[|entries| - 1];
      Install(TableOf(entries[..|entries| - 1]), last.0, last.1)
  }

  /**
    Installing writes exactly the entry's own name and its lower-case name,
    both with the same method, and every other installed name keeps its method.
  */
  lemma InstallEffect(table: map<string, RpcMethod>, key: string, tagString: string)
    ensures var r := Install(table, key, tagString);
            && (forall k :: k in r <==> k in table || k == key || k == Lower(key))
            && r[key] == MethodOf(key, tagString) && r[Lower(key)] == MethodOf(key, tagString)
            && forall k | k in table && k != key && k != Lower(key) :: r[k] == table[k]
  {
  }

  /**
    The generator's outer loop over the call table: split each tag string,
    resolve its tokens in place and install the method.
  */
  method GenerateRpcMethods(callspec: seq<(string, string)>) returns (table: map<string, RpcMethod>)
    ensures table == TableOf(callspec)
  {
    table := map[];
    var i := 0;
    while i < |callspec|
      invariant 0 <= i <= |callspec|
      invariant table == TableOf(callspec[..i])
    {
      var (key, value) := callspec[i];
      var tokens := Split(value);
      var spec := new SpecEntry[|tokens|](k requires 0 <= k < |tokens| => Token(tokens[k]));
      ResolveSpec(spec);
      var tags := seq(spec.Length, k requires 0 <= k < spec.Length && spec[k].Coercer? reads spec => spec[k].tag);
      assert tags == TagsOf(value);
      var methodName := Lower(key);
      var m := RpcMethod(methodName, tags);
      table := table[key := m][methodName := m];
      assert callspec[..i + 1][..i] == callspec[..i];
      i := i + 1;
    }
    assert callspec[..i] == callspec;
  }

  /** Whether installing `entry` writes the key `k`. */
  predicate Writes(entry: (string, string), k: string) {
    entry.0 == k || Lower(entry.0) == k
  }

  /** Every installed method sends the lower-case form of the name it is installed under. */
  lemma {:induction false} TableNames(entries: seq<(string, string)>, k: string)
    requires k in TableOf(entries)
    ensures TableOf(entries)[k].name == Lower(k)
  {
    var n := |entries|;
    var last := entries[n - 1];
    if k == Lower(last.0) {
      LowerIdempotent(last.0);
    } else if k != last.0 {
      TableNames(entries[..n - 1], k);
    }
  }

  /** A name is installed exactly when some entry writes it. */
  lemma {:induction false} TableKeys(entries: seq<(string, string)>, k: string)
    ensures k in TableOf(entries) <==> exists i | 0 <= i < |entries| :: Writes(entries[i], k)
  {
    var n := |entries|;
    if n > 0 {
      var init := entries[..n - 1];
      TableKeys(init, k);
      if k in TableOf(init) {
        var i :| 0 <= i < |init| && Writes(init[i], k);
        assert Writes(entries[i], k);
      }
      if exists i | 0 <= i < n :: Writes(entries[i], k) {
        var i :| 0 <= i < n && Writes(entries[i], k);
        if i < n - 1 { assert Writes(init[i], k); }
      }
    }
  }

  /** The method installed under a name is the one built from the last entry writing that name. */
  lemma {:induction false} TableLookup(entries: seq<(string, string)>, i: nat, k: string)
    requires i < |entries| && Writes(entries[i], k)
    requires forall j | i < j < |entries| :: !Writes(entries[j], k)
    ensures k in TableOf(entries)
    ensures TableOf(entries)[k] == MethodOf(entries[i].0, entries[i].1)
  {
    var n := |entries|;
    if i < n - 1 {
      var init := entries[..n - 1];
      assert !Writes(entries[n - 1], k);
      TableLookup(init, i, k);
    }
  }

  /** A method's tag string yields one coercer per space-separated token. */
  lemma OneCoercerPerToken(tagString: string)
    ensures |TagsOf(tagString)| == CountSpaces(tagString) + 1
  {
    SplitCount(tagString);
  }

  /** The empty tag string gives exactly one `str` coercer. */
  lemma EmptyTagString()
    ensures TagsOf("") == [StrTag]
  {
    assert Split("") == [""];
  }

  /** The tag string "string int" behaves as "str int". */
  lemma StringTokenIsStr()
    ensures TagsOf("string int") == [StrTag, IntTag]
  {
    TagsOfTwoWords("string", "int");
    assert "string" + " " + "int" == "string int";
  }

  /** Two space-free tokens joined by one space give their two coercers, in order. */
  lemma TagsOfTwoWords(a: string, b: string)
    requires ' ' !in a && ' ' !in b
    ensures TagsOf(a + " " + b) == [TagOf(a), TagOf(b)]
  {
    SplitOfSpaceFree(b);
    SplitAfterWord(a, b);
  }

  /** The call table: each method name with its tag string, in declaration order. */
  const CallSpec: seq<(string, string)> := [
    ("abandonTransaction", "str"),
    ("addMultiSigAddress", ""),
    ("addNode", ""),
    ("backupWallet", ""),
    ("createMultiSig", ""),
    ("createRawTransaction", ""),
    ("decodeRawTransaction", ""),
    ("dumpPrivKey", ""),
    ("encryptWallet", ""),
    ("estimateFee", "int"),
    ("estimatePriority", "int"),
    ("generate", "int"),
    ("getAccount", ""),
    ("getAccountAddress", "str"),
    ("getAddedNodeInfo", ""),
    ("getAddressMempool", "obj"),
    ("getAddressUtxos", "obj"),
    ("getAddressBalance", "obj"),
    ("getAddressDeltas", "obj"),
    ("getAddressTxids", "obj"),
    ("getAddressesByAccount", ""),
    ("getBalance", "str int"),
    ("getBestBlockHash", ""),
    ("getBlockDeltas", "str"),
    ("getBlock", "str bool"),
    ("getBlockchainInfo", ""),
    ("getBlockCount", ""),
    ("getBlockHashes", "int int obj"),
    ("getBlockHash", "int"),
    ("getBlockHeader", "str"),
    ("getBlockNumber", ""),
    ("getBlockTemplate", ""),
    ("getConnectionCount", ""),
    ("getChainTips", ""),
    ("getDifficulty", ""),
    ("getGenerate", ""),
    ("getHashesPerSec", ""),
    ("getInfo", ""),
    ("getMemoryPool", ""),
    ("getMemPoolInfo", ""),
    ("getMiningInfo", ""),
    ("getNewAddress", ""),
    ("getPeerInfo", ""),
    ("getRawMemPool", ""),
    ("getRawTransaction", "str int"),
    ("getReceivedByAccount", "str int"),
    ("getReceivedByAddress", "str int"),
    ("getSpentInfo", "obj"),
    ("getTransaction", ""),
    ("getTxOut", "str int bool"),
    ("getTxOutSetInfo", ""),
    ("getWork", ""),
    ("help", ""),
    ("importAddress", "str str bool"),
    ("importPrivKey", "str str bool"),
    ("invalidateBlock", "str"),
    ("keyPoolRefill", ""),
    ("listAccounts", "int"),
    ("listAddressGroupings", ""),
    ("listReceivedByAccount", "int bool"),
    ("listReceivedByAddress", "int bool"),
    ("listSinceBlock", "str int"),
    ("listTransactions", "str int int"),
    ("listUnspent", "int int"),
    ("listLockUnspent", "bool"),
    ("lockUnspent", ""),
    ("move", "str str float int str"),
    ("prioritiseTransaction", "str float int"),
    ("sendFrom", "str str float int str str"),
    ("sendMany", "str obj int str"),
    ("sendRawTransaction", "str"),
    ("sendToAddress", "str float str str"),
    ("setAccount", ""),
    ("setGenerate", "bool int"),
    ("setTxFee", "float"),
    ("signMessage", ""),
    ("signRawTransaction", ""),
    ("stop", ""),
    ("submitBlock", ""),
    ("validateAddress", ""),
    ("verifyMessage", ""),
    ("walletLock", ""),
    ("walletPassPhrase", "string int"),
    ("walletPassphraseChange", "")
  ]
}
