/**
 * hudson.model.FileParameterValue: the value of a file build parameter, an
 * uploaded file item plus the workspace location it is copied to when the
 * build starts.
 *
 * Not modelled: the file contents and streams (`FileItemImpl`), the
 * workspace copy itself and the build log; the superclass
 * `ParameterValue`'s equality and hash and `String.hashCode` are parameters.
 */
module FileParameter {
  import opened Wrappers

  /* ----- Java's 32-bit int ----- */

  const TwoTo32: int := 0x1_0000_0000
  const TwoTo31: int := 0x8000_0000

  newtype Int32 = x: int | -0x8000_0000 <= x < 0x8000_0000

  /** The 32-bit two's-complement value of `x`: what Java keeps of an overflowing `int` result. */
  function Wrap(x: int): (r: Int32)
    ensures (x - r as int) % TwoTo32 == 0
    ensures -TwoTo31 <= x < TwoTo31 ==> r as int == x
  {
    ((x + TwoTo31) % TwoTo32 - TwoTo31) as Int32
  }

  /** Wrapping an intermediate result does not change the wrapped sum. */
  lemma WrapAdd(a: int, b: int)
    ensures Wrap(Wrap(a) as int + b) == Wrap(a + b)
  {
  }

  /** Java's `int` multiplication. */
  function IntMul(a: Int32, b: Int32): Int32
  {
    Wrap(a as int * b as int)
  }

  /** Java's `int` addition. */
  function IntAdd(a: Int32, b: Int32): Int32
  {
    Wrap(a as int + b as int)
  }

  /* ----- Values ----- */

  /** An uploaded file item; `getName()` may be null. */
  datatype FileItem = FileItem(name: Option<string>)

  /** A java.io.File, by its name (the last segment of its path). */
  datatype LocalFile = LocalFile(name: string)

  /** `StringUtils.isEmpty`: null or the empty string. */
  predicate IsEmpty(s: Option<string>)
  {
    s.None? || s.value == ""
  }

  /** A possibly null string as string concatenation renders it. */
  function Render(s: Option<string>): string
  {
    if s.None? then "null" else s.value
  }

  const ShortDescriptionPrefix: string := "(FileParameterValue) "

  /** The short description of a file parameter `name` whose file is named `fileName`. */
  function ShortDescriptionOf(name: string, fileName: Option<string>): (s: string)
    ensures |s| == 24 + |name| + |Render(fileName)|
    ensures s[..21] == "(FileParameterValue) "
    ensures s[21..21 + |name|] == name
    ensures s[21 + |name|..23 + |name|] == "='"
    ensures s[23 + |name|..|s| - 1] == Render(fileName)
    ensures s[|s| - 1] == '\''
  {
    ShortDescriptionPrefix + name + "='" + Render(fileName) + "'"
  }

  /** What `setUp` did with the file. */
  datatype SetUpOutcome =
    | Copied(destination: Option<string>, item: FileItem)
    | Skipped

  const FileParameterValueClass: string := "hudson.model.FileParameterValue"

  class FileParameterValue {
    /** `ParameterValue.name`. */
    const name: string
    /** `ParameterValue.description`; may be null. */
    const description: Option<string>
    /** The uploaded file; null once `setUp` has copied it. */
    var file: Option<FileItem>
    /** The workspace-relative path the file is copied to; null until set. */
    var location: Option<string>
    /** The file's name as given at construction, kept when the file is dropped. */
    const originalFileName: Option<string>

    /** While the file is held, it is the file the value was created with. */
    ghost predicate Valid()
      reads this
    {
      file.Some? ==> file.value.name == originalFileName
    }

    /** `FileParameterValue(name, file, description)`. */
    constructor (name: string, file: FileItem, description: Option<string>)
      ensures this.name == name && this.description == description
      ensures this.file == Some(file) && location == None
      ensures originalFileName == file.name
      ensures Valid()
    {
      this.name := name;
      this.description := description;
      this.file := Some(file);
      this.location := None;
      this.originalFileName := file.name;
    }

    /** `FileParameterValue(name, file)`: the same with a null description. */
    constructor WithoutDescription(name: string, file: FileItem)
      ensures this.name == name && description == None
      ensures this.file == Some(file) && location == None
      ensures originalFileName == file.name
      ensures Valid()
    {
      this.name := name;
      this.description := None;
      this.file := Some(file);
      this.location := None;
      this.originalFileName := file.name;
    }

    /** `FileParameterValue(name, File, desc)`: a file item over a local file, named as the file. */
    constructor FromFile(name: string, f: LocalFile, desc: Option<string>)
      ensures this.name == name && description == desc
      ensures file == Some(FileItem(Some(f.name))) && location == None
      ensures originalFileName == Some(f.name)
      ensures Valid()
    {
      this.name := name;
      this.description := desc;
      this.file := Some(FileItem(Some(f.name)));
      this.location := None;
      this.originalFileName := Some(f.name);
    }

    /** `setLocation`: sets the location and nothing else. */
    method SetLocation(location: Option<string>)
      modifies this`location
      ensures this.location == location
      ensures old(Valid()) ==> Valid()
    {
      this.location := location;
    }

    /**
     * `setUp` of the build wrapper that `createBuildWrapper` returns: a file
     * with a non-empty name is copied to the location and then dropped; a
     * file without a name is kept and nothing is copied. `copyError` is what
     * the workspace copy threw, if anything; then the file is kept. With the
     * file already dropped, reading its name throws.
     */
    method SetUp(copyError: Option<JavaException>) returns (r: Result<SetUpOutcome, JavaException>)
      requires Valid()
      modifies this`file
      ensures Valid()
      ensures FixedShortDescription() == old(FixedShortDescription())
      ensures old(file).None? ==> r == Err(NullPointerException) && file == None
      ensures old(file).Some? && IsEmpty(old(file).value.name) ==> r == Ok(Skipped) && file == old(file)
      ensures old(file).Some? && !IsEmpty(old(file).value.name) && copyError.Some? ==>
                r == Err(copyError.value) && file == old(file)
      ensures old(file).Some? && !IsEmpty(old(file).value.name) && copyError.None? ==>
                r == Ok(Copied(location, old(file).value)) && file == None
    {
      if file.None? {
        return Err(NullPointerException);
      }
      if IsEmpty(file.value.name) {
        return Ok(Skipped);
      }
      if copyError.Some? {
        return Err(copyError.value);
      }
      r := Ok(Copied(location, file.value));
      file := None;
    }

    /**
     * `getShortDescription()` as written: it reads the name of the file,
     * which throws once `setUp` has dropped the file.
     */
    function GetShortDescription(): (r: Result<string, JavaException>)
      reads this
      ensures file.None? <==> r == Err(NullPointerException)
      ensures file.Some? ==> r == Ok(ShortDescriptionOf(name, file.value.name))
    {
      if file.None? then Err(NullPointerException)
      else Ok(ShortDescriptionOf(name, file.value.name))
    }

    /** `getShortDescription()` as intended: it names the file the value was created with, before and after `setUp`. */
    function FixedShortDescription(): (s: string)
      reads this
      ensures s == ShortDescriptionOf(name, originalFileName)
      ensures Valid() && file.Some? ==> GetShortDescription() == Ok(s)
    {
      ShortDescriptionOf(name, originalFileName)
    }

    /** This value as `equals` and `hashCode` see it, at the given identity. */
    function View(address: nat): JObject
      reads this
    {
      JObject(address, FileParameterValueClass, name, description, location)
    }
  }

  /**
   * After a successful copy in `setUp`, the short description as written
   * throws, while the intended one still names the uploaded file.
   */
  method ShortDescriptionAfterCopy() returns (asWritten: Result<string, JavaException>, fixed: string)
    ensures asWritten == Err(NullPointerException)
    ensures fixed == "(FileParameterValue) report='report.txt'"
  {
    var v := new FileParameterValue.WithoutDescription("report", FileItem(Some("report.txt")));
    v.SetLocation(Some("input/report.txt"));
    var outcome := v.SetUp(None);
    asWritten := v.GetShortDescription();
    fixed := v.FixedShortDescription();
  }

  /* ----- equals and hashCode ----- */

  /**
   * An object as `equals(Object)` and `hashCode()` see it: its identity, its
   * runtime class, the `ParameterValue` fields and the location (which is
   * only read from `FileParameterValue` objects).
   */
  datatype JObject = JObject(
    address: nat,
    runtimeClass: string,
    name: string,
    description: Option<string>,
    location: Option<string>)

  /** `ParameterValue.equals` between two non-null objects, and `ParameterValue.hashCode`. */
  datatype SuperIdentity = SuperIdentity(equals: (JObject, JObject) -> bool, hashCode: JObject -> Int32)

  /** The superclass keeps Java's contract: equal objects have equal hashes. */
  ghost predicate HashAgreesWithEquals(sup: SuperIdentity)
  {
    forall a, b :: sup.equals(a, b) ==> sup.hashCode(a) == sup.hashCode(b)
  }

  /** The objects come from one heap: an identity names one object. */
  predicate SameHeap(a: JObject, b: JObject)
  {
    a.address == b.address ==> a == b
  }

  /** The null-safe comparison of two locations. */
  predicate LocationsEqual(a: Option<string>, b: Option<string>)
  {
    if a.None? then b.None?
    else b.Some? && a.value == b.value
  }

  /**
   * `equals(obj)` of `self`; `obj` may be null, which the superclass never
   * equals (the contract of `Object.equals`).
   */
  predicate Equals(self: JObject, obj: Option<JObject>, sup: SuperIdentity)
  {
    if obj.Some? && obj.value.address == self.address then true
    else if obj.None? || !sup.equals(self, obj.value) then false
    else if self.runtimeClass != obj.value.runtimeClass then false
    else LocationsEqual(self.location, obj.value.location)
  }

  /** `hashCode()` of `self`, in Java's `int` arithmetic. */
  function HashCode(self: JObject, sup: SuperIdentity, stringHash: string -> Int32): Int32
  {
    var prime: Int32 := 31;
    var result := sup.hashCode(self);
    IntAdd(IntMul(prime, result), if self.location.None? then 0 else stringHash(self.location.value))
  }

  /** The hash is `31 * super.hashCode() + hash(location)`, with one wrap-around at the end. */
  lemma HashCodeFormula(self: JObject, sup: SuperIdentity, stringHash: string -> Int32)
    ensures HashCode(self, sup, stringHash) ==
            Wrap(31 * sup.hashCode(self) as int + if self.location.None? then 0 else stringHash(self.location.value) as int)
  {
    // The product is wrapped before the addition; wrapping once at the end gives the same int.
    WrapAdd(31 * sup.hashCode(self) as int, if self.location.None? then 0 else stringHash(self.location.value) as int);
  }

  /** Locations are compared null-safely: both null, or both non-null and the same string. */
  lemma LocationsEqualIsNullSafe(a: Option<string>, b: Option<string>)
    ensures a.None? && b.None? ==> LocationsEqual(a, b)
    ensures a.None? != b.None? ==> !LocationsEqual(a, b)
    ensures a.Some? && b.Some? ==> (LocationsEqual(a, b) <==> a.value == b.value)
    ensures LocationsEqual(a, b) <==> a == b
  {
  }

  /** `equals` is reflexive and never holds for null. */
  lemma EqualsReflexive(a: JObject, sup: SuperIdentity)
    ensures Equals(a, Some(a), sup)
    ensures !Equals(a, None, sup)
  {
  }

  /**
   * Between two distinct objects, `equals` holds exactly when the superclass
   * says equal, the runtime classes are the same and the locations are equal.
   */
  lemma EqualsDistinct(a: JObject, b: JObject, sup: SuperIdentity)
    requires a.address != b.address
    ensures Equals(a, Some(b), sup) <==>
            sup.equals(a, b) && a.runtimeClass == b.runtimeClass && a.location == b.location
  {
  }

  /** Equal objects have equal hashes, given that the superclass's hash agrees with its equality. */
  lemma HashCodeAgreesWithEquals(a: JObject, b: JObject, sup: SuperIdentity, stringHash: string -> Int32)
    requires HashAgreesWithEquals(sup) && SameHeap(a, b)
    requires Equals(a, Some(b), sup)
    ensures HashCode(a, sup, stringHash) == HashCode(b, sup, stringHash)
  {
  }

  /** `equals` is symmetric when the superclass's equality is. */
  lemma EqualsSymmetric(a: JObject, b: JObject, sup: SuperIdentity)
    requires forall x, y :: sup.equals(x, y) ==> sup.equals(y, x)
    requires Equals(a, Some(b), sup)
    ensures Equals(b, Some(a), sup)
  {
  }

  /** `equals` is transitive when the superclass's equality is. */
  lemma EqualsTransitive(a: JObject, b: JObject, c: JObject, sup: SuperIdentity)
    requires forall x, y, z :: sup.equals(x, y) && sup.equals(y, z) ==> sup.equals(x, z)
    requires SameHeap(a, b) && SameHeap(b, c) && SameHeap(a, c)
    requires Equals(a, Some(b), sup) && Equals(b, Some(c), sup)
    ensures Equals(a, Some(c), sup)
  {
  }

  /** `setLocation` changes what `equals` and `hashCode` see only in the location. */
  method SetLocationChangesOnlyLocation(v: FileParameterValue, address: nat, location: Option<string>)
    modifies v
    ensures v.View(address) == old(v.View(address)).(location := location)
    ensures v.file == old(v.file)
  {
    v.SetLocation(location);
  }
}
