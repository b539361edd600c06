# Hudson console annotator factories, classpath builder and file parameter values

A Dafny model of three small pieces of Hudson's core:

- **`hudson.console.ConsoleAnnotatorFactory`** (module `ConsoleAnnotation`).
  A factory declares the context type it applies to through its generic type argument.
  A console session hands the context only to factories whose type the context is assignable to.
  A factory answering null does not take part.
  A factory may also advertise a `script.js` resource, found under a path derived from its class name and served with a one-day cache lifetime.
  Reflection and the class loader are replaced by values passed in (`Reflection`, a resource lookup function).
  Session selection over a registry snapshot is the function `Select`.
  `newInstance` is a partial function, so the verifier checks that it is only applied to contexts its factory accepts.
- **`hudson.util.ClasspathBuilder`** (module `Classpath`).
  The builder is a class holding the `seq<string>` of entries added so far.
  The `add` overloads and `addAll` append to it, and `toString` joins the entries with the path separator.
  The lemmas show that, from the second entry on, the joined string grows by one separator and one entry per `add`.
  They also show that, for a non-empty builder, cutting it at a one-character separator that no entry contains gives the entries back.
- **`hudson.model.FileParameterValue`** (module `FileParameter`).
  The value is a class with the uploaded file and its workspace location.
  It has the three constructors, `setLocation`, and the `setUp` of the build wrapper, which drops the file after copying it.
  `equals`, `hashCode` and the short description are pure functions.
  Java's 32-bit `int` arithmetic is written out as `Wrap`.
  The superclass's equality and hash are parameters, assumed to agree with each other.

`wrappers.dfy` holds `Option` (a nullable reference), `Result` (return or throw) and the exceptions that can be thrown.

## Model

| member | source | states |
|---|---|---|
| `ConsoleAnnotation.Type` | core/src/main/java/hudson/console/ConsoleAnnotatorFactory.java:78-84 | the context type is the erasure of type argument 0 when the factory's `ConsoleAnnotatorFactory` base is parameterized, and `Object` otherwise (the corrected lookup, see Findings) |
| `ConsoleAnnotation.TypeAsWritten` | core/src/main/java/hudson/console/ConsoleAnnotatorFactory.java:78-84 | as written: `type()` with the base `ConsoleAnnotator` looked up; characterised by `TypeAsWrittenIsAlwaysObject` (always `Object` for a factory) and `TypeAsWrittenCounterexample` (see Findings) |
| `ConsoleAnnotation.NonGenericAcceptsEverything` | core/src/main/java/hudson/console/ConsoleAnnotatorFactory.java:82-83 | a factory without a type argument gets `Object`, so every context is assignable to it |
| `ConsoleAnnotation.Accepts` | core/src/main/java/hudson/console/ConsoleAnnotatorFactory.java:68-69 | the context is handed to a factory only when its runtime class is assignable to the factory's corrected `type()` (`Type`), that is, when that type is `Object`, the runtime class itself or one of its supertypes; characterised by `NonGenericAcceptsEverything`, `TypeAsWrittenCounterexample` and the contracts of `Answer` and `Select` |
| `ConsoleAnnotation.TypeAsWrittenIsAlwaysObject` | core/src/main/java/hudson/console/ConsoleAnnotatorFactory.java:79-83 | as written, the base looked up is `ConsoleAnnotator`; for a factory that is not one (and reflection that finds a base only among the supertypes), the lookup is null and `type()` is `Object` |
| `ConsoleAnnotation.TypeAsWrittenCounterexample` | core/src/main/java/hudson/console/ConsoleAnnotatorFactory.java:79 | a `ConsoleAnnotatorFactory<Run>` gets `Object` as written and would be handed a `Computer`; corrected, it gets `Run` and does not |
| `ConsoleAnnotation.Answer` | core/src/main/java/hudson/console/ConsoleAnnotatorFactory.java:66-73 | a factory yields an annotator iff the context is assignable to its type and `newInstance` returns non-null, and then it is `newInstance`'s result; a factory that does not accept the context is not called |
| `ConsoleAnnotation.SelectFrom` | core/src/main/java/hudson/console/ConsoleAnnotatorFactory.java:66-73 | from a registry position onwards, an annotator appears for factory i exactly when i accepts the context and answers non-null; it is i's answer; positions strictly increase |
| `ConsoleAnnotation.Select` | core/src/main/java/hudson/console/ConsoleAnnotatorFactory.java:66-73 | a session holds an annotator for factory F iff the context is assignable to F's type and F returned non-null, in registry order; `newInstance` is only called on accepted contexts |
| `ConsoleAnnotation.SelectHasNoDuplicates` | core/src/main/java/hudson/console/ConsoleAnnotatorFactory.java:66-73 | no factory contributes two annotators to one session |
| `ConsoleAnnotation.SelectFromLength` | core/src/main/java/hudson/console/ConsoleAnnotatorFactory.java:70-73 | a session holds no more annotators than there are factories |
| `ConsoleAnnotation.SelectFromAll` | core/src/main/java/hudson/console/ConsoleAnnotatorFactory.java:70-73 | when every factory accepts and none answers null, the session holds exactly one annotator per factory, in registry order |
| `ConsoleAnnotation.Replace` | core/src/main/java/hudson/console/ConsoleAnnotatorFactory.java:95 | `String.replace(char, char)` keeps the length and replaces exactly the occurrences of the character, position by position |
| `ConsoleAnnotation.ScriptJsPath` | core/src/main/java/hudson/console/ConsoleAnnotatorFactory.java:93-96 | the script path has length |name| + 10 and ends in `/script.js`; its prefix has no `.` or `$`, has `/` where the name has them, and keeps every other character in place |
| `ConsoleAnnotation.ScriptJsPathInjectiveUpToSeparators` | core/src/main/java/hudson/console/ConsoleAnnotatorFactory.java:95 | two class names share a script path iff they agree once `.` and `$` are read as `/` |
| `ConsoleAnnotation.GetScriptJs` | core/src/main/java/hudson/console/ConsoleAnnotatorFactory.java:93-96 | the class loader's answer for the factory's script path, null when there is none; characterised by `ScriptJsPath`, `HasScriptAgreesWithLookup` and `DoScriptJs` |
| `ConsoleAnnotation.HasScript` | core/src/main/java/hudson/console/ConsoleAnnotatorFactory.java:89-91 | `getScriptJs() != null`; characterised by `HasScriptAgreesWithLookup` |
| `ConsoleAnnotation.HasScriptAgreesWithLookup` | core/src/main/java/hudson/console/ConsoleAnnotatorFactory.java:89-91 | `hasScript()` is true exactly when the resource lookup of the script path is non-null |
| `ConsoleAnnotation.DoScriptJs` | core/src/main/java/hudson/console/ConsoleAnnotatorFactory.java:101-104 | the resource served is `getScriptJs()`'s, the one found at the factory's script path, with a cache lifetime of 86,400,000 ms (one day); a resource is served exactly when `hasScript()` holds |
| `Classpath.ClasspathBuilder.constructor` | core/src/main/java/hudson/util/ClasspathBuilder.java:19 | a new builder has no entries |
| `Classpath.ClasspathBuilder.Add` | core/src/main/java/hudson/util/ClasspathBuilder.java:38-41 | the path becomes the new last entry, earlier entries are unchanged and in order, and the same builder is returned |
| `Classpath.ClasspathBuilder.AddFile` | core/src/main/java/hudson/util/ClasspathBuilder.java:24-26 | `add(File)` is `add` of the absolute path |
| `Classpath.ClasspathBuilder.AddFilePath` | core/src/main/java/hudson/util/ClasspathBuilder.java:31-33 | `add(FilePath)` is `add` of the remote path |
| `Classpath.ClasspathBuilder.AddAll` | core/src/main/java/hudson/util/ClasspathBuilder.java:48-52 | the entries become the old entries followed by the listed remote paths in listing order, and the builder is returned; a listing that throws adds nothing |
| `Classpath.Remotes` | core/src/main/java/hudson/util/ClasspathBuilder.java:49-50 | the listed items' remote paths, one per item, in listing order |
| `Classpath.ClasspathBuilder.ToString` | core/src/main/java/hudson/util/ClasspathBuilder.java:57-60 | no entries give the empty string, one entry gives itself, and more give the first entry, the separator and the rest joined |
| `Classpath.Join` | core/src/main/java/hudson/util/ClasspathBuilder.java:59 | `Util.join` of the entries with the separator; characterised by `JoinAppend`, `JoinLength` and the round trip `SplitJoin` |
| `Classpath.JoinAppend` | core/src/main/java/hudson/util/ClasspathBuilder.java:59 | joining one more entry onto a non-empty list appends the separator and that entry to the joined string |
| `Classpath.AddExtendsString` | core/src/main/java/hudson/util/ClasspathBuilder.java:38-41 | after `add` on a non-empty builder, `toString` is the old string, the separator and the new path |
| `Classpath.JoinLength` | core/src/main/java/hudson/util/ClasspathBuilder.java:59 | the classpath string is as long as all entries plus one separator between each two |
| `Classpath.SplitJoin` | core/src/main/java/hudson/util/ClasspathBuilder.java:59 | for a non-empty builder, with a one-character separator no entry contains, cutting the classpath string at the separator gives back the entries in insertion order (an empty builder gives `""`, which cuts into one empty part) |
| `FileParameter.FileParameterValue.constructor` | core/src/main/java/hudson/model/FileParameterValue.java:64-68 | name, description and the (non-null) file are stored; no location yet |
| `FileParameter.FileParameterValue.WithoutDescription` | core/src/main/java/hudson/model/FileParameterValue.java:60-63 | the two-argument constructor is the three-argument one with a null description |
| `FileParameter.FileParameterValue.FromFile` | core/src/main/java/hudson/model/FileParameterValue.java:70-72 | a local file is wrapped in a file item named as the file |
| `FileParameter.FileParameterValue.SetLocation` | core/src/main/java/hudson/model/FileParameterValue.java:75-77 | only `location` changes, to the given value |
| `FileParameter.SetLocationChangesOnlyLocation` | core/src/main/java/hudson/model/FileParameterValue.java:75-77 | what `equals` and `hashCode` see changes only in the location, and the file is untouched |
| `FileParameter.FileParameterValue.SetUp` | core/src/main/java/hudson/model/FileParameterValue.java:80-91 | the file is copied and then dropped iff its name is non-empty (null counts as empty); otherwise it is kept and nothing is copied; a failed copy keeps it; with the file already dropped, `setUp` throws; the corrected short description is unchanged |
| `FileParameter.ShortDescriptionOf` | core/src/main/java/hudson/model/FileParameterValue.java:124 | the description is `(FileParameterValue) `, the name, `='`, the file name (`null` when null) and `'`, laid out at the stated positions |
| `FileParameter.FileParameterValue.GetShortDescription` | core/src/main/java/hudson/model/FileParameterValue.java:122-125 | as written: the short description of the held file, and a `NullPointerException` exactly when the file was dropped |
| `FileParameter.FileParameterValue.FixedShortDescription` | core/src/main/java/hudson/model/FileParameterValue.java:122-125 | corrected: always the short description of the name and the file name given at construction, before and after `setUp`; while the file is held, it is the one `getShortDescription` gives |
| `FileParameter.ShortDescriptionAfterCopy` | core/src/main/java/hudson/model/FileParameterValue.java:122-125 | one concrete example: for a value created with file `report.txt`, after a `setUp` that copies it, the as-written description throws and the corrected one still names `report.txt` |
| `FileParameter.Wrap` | core/src/main/java/hudson/model/FileParameterValue.java:93-100 | the 32-bit `int` result differs from the exact one by a multiple of 2^32 and equals it when it fits |
| `FileParameter.WrapAdd` | core/src/main/java/hudson/model/FileParameterValue.java:97-98 | wrapping the product before the addition gives the same `int` as wrapping once at the end |
| `FileParameter.HashCode` | core/src/main/java/hudson/model/FileParameterValue.java:93-100 | `hashCode()` in Java `int` arithmetic; characterised by `HashCodeFormula` and `HashCodeAgreesWithEquals` |
| `FileParameter.HashCodeFormula` | core/src/main/java/hudson/model/FileParameterValue.java:93-100 | `hashCode` is `31 * super.hashCode() + (location == null ? 0 : hash(location))` in 32-bit wrap-around arithmetic |
| `FileParameter.LocationsEqual` | core/src/main/java/hudson/model/FileParameterValue.java:114-119 | the null-safe comparison of the two locations; characterised by `LocationsEqualIsNullSafe` |
| `FileParameter.Equals` | core/src/main/java/hudson/model/FileParameterValue.java:106-120 | `equals(obj)`: identity, then the superclass's equality, the runtime class and the locations; characterised by `EqualsReflexive`, `EqualsDistinct`, `EqualsSymmetric`, `EqualsTransitive` and `HashCodeAgreesWithEquals` |
| `FileParameter.LocationsEqualIsNullSafe` | core/src/main/java/hudson/model/FileParameterValue.java:114-119 | two null locations are equal, one null location is unequal to a non-null one, and otherwise string equality decides |
| `FileParameter.EqualsReflexive` | core/src/main/java/hudson/model/FileParameterValue.java:107-108 | an object equals itself, and never equals null |
| `FileParameter.EqualsDistinct` | core/src/main/java/hudson/model/FileParameterValue.java:106-120 | two distinct objects are equal iff the superclass says equal, the runtime classes are the same and the locations are equal |
| `FileParameter.HashCodeAgreesWithEquals` | core/src/main/java/hudson/model/FileParameterValue.java:93-120 | equal objects have equal hashes, given that the superclass's hash agrees with its equality |
| `FileParameter.EqualsSymmetric` | core/src/main/java/hudson/model/FileParameterValue.java:106-120 | `equals` is symmetric when the superclass's equality is |
| `FileParameter.EqualsTransitive` | core/src/main/java/hudson/model/FileParameterValue.java:106-120 | `equals` is transitive when the superclass's equality is transitive and one address names one object |

## Findings

| source | as written | input that shows it | evidently intended | confidence | as-written member | corrected member |
|---|---|---|---|---|---|---|
| core/src/main/java/hudson/console/ConsoleAnnotatorFactory.java:79 | `type()` asks `Types.getBaseClass` for the base `ConsoleAnnotator`, which a factory class never extends (it is a separate class, not part of this model), so the lookup is null and the type is always `Object` | `class RunFactory extends ConsoleAnnotatorFactory<Run>`: `type()` is `Object`, so a `Computer` context passes the assignability check meant for `Run` | look up the base `ConsoleAnnotatorFactory`, whose type argument is `Run` | medium (relies on `ConsoleAnnotator` being a class that factories do not extend); not executed | `ConsoleAnnotation.TypeAsWrittenCounterexample` | `ConsoleAnnotation.Type` |
| core/src/main/java/hudson/model/FileParameterValue.java:124 | `getShortDescription()` reads `file.getName()`, but `setUp` sets `file` to null after the copy (line 86) | a value for file `report.txt`: after `setUp` copies it, `getShortDescription()` throws `NullPointerException` | name the file the value was created with, kept in its own field (`originalFileName`) | medium; not executed | `FileParameter.ShortDescriptionAfterCopy` | `FileParameter.FileParameterValue.FixedShortDescription` |

The rest of the model uses the corrected `Type` for session selection.
The `FileParameterValue` class carries the extra field `originalFileName` only for `FixedShortDescription`.
`GetShortDescription` keeps the behaviour as written.

## Left out

- Java reflection (`Types.getBaseClass`, `getTypeArgument`, `erasure`, `Class.isAssignableFrom`) is replaced by the `Reflection` value. A type argument's erasure covers class types, parameterized types and type variables with one bound; wildcards and arrays are not modelled.
- `ConsoleAnnotatorFactory.all()` reads the global extension registry; the registry is passed to `Select` as a sequence.
- Concurrent calls of `newInstance` are not modelled; the model is sequential.
- The per-line annotation by `ConsoleAnnotator` instances is not part of this model: that class is not among the modelled files.
- `getScriptJs()`'s class-loader lookup is a function argument, and `doScriptJs` returns what it would serve instead of writing an HTTP response.
- No cache of the resolved type is modelled, because the source recomputes `type()` on every call.
- `ClasspathBuilder`: `File.getAbsolutePath()`, `FilePath.getRemote()`, `File.pathSeparator` and the listing `FilePath.list(glob)` are inputs. `Util.join` is the recursive function `Join`, not a loop.
- `FileParameterValue.FileItemImpl` is file-stream I/O and is not modelled; a file item is its (nullable) name.
- `FileParameter.FileParameterValue.SetUp`: the workspace copy, the log line and the returned `Environment` are not modelled. Whether the copy threw is an input (this covers a null location too), and the result records what would be copied where.
- `FileParameter.Equals`: `ParameterValue.equals` and `ParameterValue.hashCode` are parameters, and so is `String.hashCode`. `super.equals(null)` is taken to be false, as `Object.equals` requires.
- `FileParameter.HashCodeAgreesWithEquals`: holds under the stated assumptions that the superclass's hash agrees with its equality and that one address names one object.
- The parameter `name` is modelled as non-null.
- `Classpath.ClasspathBuilder.Add`: entries are non-null strings, so `add((String) null)`, which the Java list accepts and the join would most likely render as `null`, is not modelled.
