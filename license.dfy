/**
  The Apache license header that the OpenAPI splitter writes at the top of
  every endpoint file (api/yaml/openapi/combine.py, the `license` constant),
  one constant per line.  Long lines are written as several short literals so
  that the verifier can inspect each piece; the lemmas below establish that
  every line is a comment line the header strip passes over and that no line
  can start the `OPENAPI-URI: ` marker.
*/
module OpenApiLicense {
  import opened Strings

  /**
    `s` holds no line break and no 'P'.  Without a 'P' no occurrence of the
    marker `OPENAPI-URI: ` (whose second character is 'P') can start inside it.
  */
  predicate InertText(s: string) {
    forall i :: 0 <= i < |s| ==> s[i] != '\n' && s[i] != '\r' && s[i] != 'P'
  }

  /**
    A license line that the header strip consumes: it starts with '#', it is
    inert, and the first non-blank character after the '#' within the line,
    if there is one, is not a double quote, so it cannot open a docstring.
  */
  predicate HeaderLine(l: string) {
    && |l| >= 1 && l[0] == '#' && InertText(l)
    && (SkipSpace(l, 1) == |l| || l[SkipSpace(l, 1)] != '"')
  }

  const LicenseLine0: string := "#!/usr/bin/env python3"
  const LicenseLine1: string := "# -*- coding: utf-8 -*-"
  const LicenseLine2: string := "# Licensed to the Apache" + " Software Foundation (AS" + "F) under one or more"
  const LicenseLine3: string := "# contributor license ag" + "reements.  See the NOTIC" + "E file distributed with"
  const LicenseLine4: string := "# this work for addition" + "al information regarding" + " copyright ownership."
  const LicenseLine5: string := "# The ASF licenses this " + "file to You under the Ap" + "ache License, Version 2." + "0"
  const LicenseLine6: string := "# (the \"License\"); you m" + "ay not use this file exc" + "ept in compliance with"
  const LicenseLine7: string := "# the License.  You may " + "obtain a copy of the Lic" + "ense at"
  const LicenseLine8: string := "#"
  const LicenseLine9: string := "#     " + "http://www.apache.org/li" + "censes/LICENSE-2.0"
  const LicenseLine10: string := "#"
  const LicenseLine11: string := "# Unless required by app" + "licable law or agreed to" + " in writing, software"
  const LicenseLine12: string := "# distributed under the " + "License is distributed o" + "n an \"AS IS\" BASIS,"
  const LicenseLine13: string := "# WITHOUT WARRANTIES OR " + "CONDITIONS OF ANY KIND, " + "either express or implie" + "d."
  const LicenseLine14: string := "# See the License for th" + "e specific language gove" + "rning permissions and"
  const LicenseLine15: string := "# limitations under the " + "License."

  const LicenseLines: seq<string> :=
    [LicenseLine0, LicenseLine1, LicenseLine2, LicenseLine3] +
    [LicenseLine4, LicenseLine5, LicenseLine6, LicenseLine7] +
    [LicenseLine8, LicenseLine9, LicenseLine10, LicenseLine11] +
    [LicenseLine12, LicenseLine13, LicenseLine14, LicenseLine15]

  lemma LicenseLine0IsHeader()
    ensures HeaderLine(LicenseLine0)
  {
    assert InertText("#!/usr/bin/env python3");
  }

  lemma LicenseLine1IsHeader()
    ensures HeaderLine(LicenseLine1)
  {
    assert InertText("# -*- coding: utf-8 -*-");
  }

  lemma LicenseLine2IsHeader()
    ensures HeaderLine(LicenseLine2)
  {
    assert InertText("# Licensed to the Apache");
    assert InertText(" Software Foundation (AS");
    assert InertText("F) under one or more");
  }

  lemma LicenseLine3IsHeader()
    ensures HeaderLine(LicenseLine3)
  {
    assert InertText("# contributor license ag");
    assert InertText("reements.  See the NOTIC");
    assert InertText("E file distributed with");
  }

  lemma LicenseLine4IsHeader()
    ensures HeaderLine(LicenseLine4)
  {
    assert InertText("# this work for addition");
    assert InertText("al information regarding");
    assert InertText(" copyright ownership.");
  }

  lemma LicenseLine5IsHeader()
    ensures HeaderLine(LicenseLine5)
  {
    assert InertText("# The ASF licenses this ");
    assert InertText("file to You under the Ap");
    assert InertText("ache License, Version 2.");
    assert InertText("0");
  }

  lemma LicenseLine6IsHeader()
    ensures HeaderLine(LicenseLine6)
  {
    assert InertText("# (the \"License\"); you m");
    assert InertText("ay not use this file exc");
    assert InertText("ept in compliance with");
  }

  lemma LicenseLine7IsHeader()
    ensures HeaderLine(LicenseLine7)
  {
    assert InertText("# the License.  You may ");
    assert InertText("obtain a copy of the Lic");
    assert InertText("ense at");
  }

  lemma LicenseLine8IsHeader()
    ensures HeaderLine(LicenseLine8)
  {
    assert InertText("#");
  }

  lemma LicenseLine9IsHeader()
    ensures HeaderLine(LicenseLine9)
  {
    assert InertText("#     ");
    assert InertText("http://www.apache.org/li");
    assert InertText("censes/LICENSE-2.0");
    var l := LicenseLine9;
    assert l[1] == l[2] == l[3] == l[4] == l[5] == ' ' && l[6] == 'h';
    assert SkipSpace(l, 6) == 6;
    assert SkipSpace(l, 1) == 6;
  }

  lemma LicenseLine10IsHeader()
    ensures HeaderLine(LicenseLine10)
  {
    assert InertText("#");
  }

  lemma LicenseLine11IsHeader()
    ensures HeaderLine(LicenseLine11)
  {
    assert InertText("# Unless required by app");
    assert InertText("licable law or agreed to");
    assert InertText(" in writing, software");
  }

  lemma LicenseLine12IsHeader()
    ensures HeaderLine(LicenseLine12)
  {
    assert InertText("# distributed under the ");
    assert InertText("License is distributed o");
    assert InertText("n an \"AS IS\" BASIS,");
  }

  lemma LicenseLine13IsHeader()
    ensures HeaderLine(LicenseLine13)
  {
    assert InertText("# WITHOUT WARRANTIES OR ");
    assert InertText("CONDITIONS OF ANY KIND, ");
    assert InertText("either express or implie");
    assert InertText("d.");
  }

  lemma LicenseLine14IsHeader()
    ensures HeaderLine(LicenseLine14)
  {
    assert InertText("# See the License for th");
    assert InertText("e specific language gove");
    assert InertText("rning permissions and");
  }

  lemma LicenseLine15IsHeader()
    ensures HeaderLine(LicenseLine15)
  {
    assert InertText("# limitations under the ");
    assert InertText("License.");
  }


  /** The license text written by `f.write(license)`. */
  const License: string := Lines(LicenseLines)

  lemma LicenseLinesAreHeaders()
    ensures forall i :: 0 <= i < |LicenseLines| ==> HeaderLine(LicenseLines[i])
  {
    forall i | 0 <= i < |LicenseLines| ensures HeaderLine(LicenseLines[i]) {
      if i == 0 { LicenseLine0IsHeader(); }
      else if i == 1 { LicenseLine1IsHeader(); }
      else if i == 2 { LicenseLine2IsHeader(); }
      else if i == 3 { LicenseLine3IsHeader(); }
      else if i == 4 { LicenseLine4IsHeader(); }
      else if i == 5 { LicenseLine5IsHeader(); }
      else if i == 6 { LicenseLine6IsHeader(); }
      else if i == 7 { LicenseLine7IsHeader(); }
      else if i == 8 { LicenseLine8IsHeader(); }
      else if i == 9 { LicenseLine9IsHeader(); }
      else if i == 10 { LicenseLine10IsHeader(); }
      else if i == 11 { LicenseLine11IsHeader(); }
      else if i == 12 { LicenseLine12IsHeader(); }
      else if i == 13 { LicenseLine13IsHeader(); }
      else if i == 14 { LicenseLine14IsHeader(); }
      else if i == 15 { LicenseLine15IsHeader(); }
    }
  }

  /** Lines made of inert text hold no 'P' and no carriage return. */
  lemma {:induction false} InertLines(ls: seq<string>)
    requires forall i :: 0 <= i < |ls| ==> InertText(ls[i])
    ensures 'P' !in Lines(ls) && '\r' !in Lines(ls)
  {
    if ls != [] {
      InertLines(ls[1..]);
      assert InertText(ls[0]);
    }
  }

  /**
    No character of the license can be the 'P' of `OPENAPI-URI: `, and the
    license reads back from a file as written.
  */
  lemma InertLicense()
    ensures 'P' !in License && '\r' !in License
  {
    LicenseLinesAreHeaders();
    InertLines(LicenseLines);
  }
}
