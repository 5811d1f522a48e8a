/** Database paths and the documents stored under them. */
module Documents {
  import opened Wrappers

  /** The directories of the database tree, flattened to the ones the service uses. */
  datatype Dir =
    | Root
    | SchemaDir
    | ArchivedDir
    | ConfigDir(service: string)
    | OtherDir(text: string)
  {
    function Render(): string {
      match this
      case Root => ""
      case SchemaDir => "schema/"
      case ArchivedDir => "archived/"
      case ConfigDir(service) => "config/" + service + "/"
      case OtherDir(text) => text + "/"
    }
  }

  /** A file, named without the `.yaml` its name ends in when `yaml` holds. */
  datatype Path = Path(dir: Dir, name: string, yaml: bool) {
    function Render(): string {
      dir.Render() + name + if yaml then ".yaml" else ""
    }
  }

  /** A name `databasePath` refuses: the database keeps such files for itself. */
  predicate DotFile(p: Path) {
    p.name != "" && p.name[0] == '.'
  }

  const SERVICES_YAML := Path(Root, "services", true)
  const ENVIRONMENTS_YAML := Path(Root, "environments", true)

  function SchemaYaml(service: string): Path { Path(SchemaDir, service, true) }
  function ArchivedYaml(service: string): Path { Path(ArchivedDir, service, true) }
  function ConfigYaml(service: string, environment: string): Path {
    Path(ConfigDir(service), environment, true)
  }

  /** A JavaScript number. */
  datatype Number = Finite(r: real) | NaN | Infinity(positive: bool) {
    predicate IsInteger() {
      Finite? && r == r.Floor as real
    }

    /** `<` on numbers: NaN is below nothing and above nothing. */
    predicate Below(that: Number) {
      match (this, that)
      case (Finite(a), Finite(b)) => a < b
      case (Infinity(p), Finite(_)) => !p
      case (Finite(_), Infinity(p)) => p
      case (Infinity(p), Infinity(q)) => !p && q
      case (_, _) => false
    }
  }

  function Int(n: int): Number { Finite(n as real) }

  const MAX_SAFE_INTEGER: int := 0x1F_FFFF_FFFF_FFFF

  /**
   * A parsed YAML value. `Cipher` is a string holding SOPS ciphertext of `plain`; `Source` is a
   * string holding another file's text.
   */
  datatype Yaml =
    | Null
    | Bool(b: bool)
    | Num(n: Number)
    | Str(s: string)
    | Cipher(plain: Yaml, nonce: nat)
    | List(items: seq<Yaml>)
    | Map(fields: map<string, Yaml>)
    | Source(text: Content)

  /** A file's text: the value it parses to and which of that value's spellings it is. */
  datatype Content = Text(tree: Yaml, spelling: nat) | Unparsable(raw: string)

  /** Canonical text: parsing it gives the value back. */
  function Stringify(tree: Yaml): Content { Text(tree, 0) }

  type Files = map<Path, Content>

  /** SHA-256 of a text, taken as injective: the digest determines what was digested. */
  datatype Etag = Sha256(content: Content)

  function EtagAt(files: Files, p: Path): Option<Etag> {
    if p in files then Some(Sha256(files[p])) else None
  }

  /** A file set is its ETags. */
  lemma SameEtagsSameFiles(a: Files, b: Files)
    requires forall p :: EtagAt(a, p) == EtagAt(b, p)
    ensures a == b
  {
    forall p
      ensures p in a <==> p in b
      ensures p in a && p in b ==> a[p] == b[p]
    {
      assert EtagAt(a, p) == EtagAt(b, p);
    }
  }
}
