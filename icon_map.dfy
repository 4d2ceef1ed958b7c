/** The website-to-icon lookup of the table view. */
module IconMap {
  import opened Wrappers
  import opened JsString

  datatype Icon =
    | Globe | Github | Twitter | Facebook | Instagram | Linkedin | Youtube | Twitch
    | Reddit | Gitlab | Dribbble | Figma | Codepen | Mail | Apple

  /** `iconMap`, in the order its keys are enumerated. */
  const IconTable: seq<(string, Icon)> := [
    ("github", Github),
    ("twitter", Twitter),
    ("facebook", Facebook),
    ("instagram", Instagram),
    ("linkedin", Linkedin),
    ("youtube", Youtube),
    ("twitch", Twitch),
    ("reddit", Reddit),
    ("gitlab", Gitlab),
    ("dribbble", Dribbble),
    ("figma", Figma),
    ("codepen", Codepen),
    ("mail", Mail),
    ("email", Mail),
    ("apple", Apple)
  ]

  /** The first entry, from `from` on, whose key occurs in `lowerCaseWebsite`. */
  function FirstMatch(lowerCaseWebsite: string, from: nat): (r: Option<nat>)
    requires from <= |IconTable|
    ensures r.Some? ==> from <= r.value < |IconTable| && Includes(lowerCaseWebsite, IconTable[r.value].0)
    ensures r.Some? ==> forall j :: from <= j < r.value ==> !Includes(lowerCaseWebsite, IconTable[j].0)
    ensures r.None? ==> forall j :: from <= j < |IconTable| ==> !Includes(lowerCaseWebsite, IconTable[j].0)
    decreases |IconTable| - from
  {
    if from == |IconTable| then None
    else if Includes(lowerCaseWebsite, IconTable[from].0) then Some(from)
    else FirstMatch(lowerCaseWebsite, from + 1)
  }

  /** `getIconForWebsite`. */
  function GetIconForWebsite(website: string): (r: Icon)
    ensures website == "" ==> r == Globe
    ensures website != "" && FirstMatch(ToLowerCase(website), 0).Some? ==>
              r == IconTable[FirstMatch(ToLowerCase(website), 0).value].1
    ensures r == Globe <==>
              website == "" || forall j :: 0 <= j < |IconTable| ==> !Includes(ToLowerCase(website), IconTable[j].0)
  {
    if website == "" then Globe
    else
      match FirstMatch(ToLowerCase(website), 0)
      case None => Globe
      case Some(k) =>
        assert IconTable[k].1 != Globe;
        IconTable[k].1
  }

  /** The icon depends only on the lower-cased website. */
  lemma DependsOnLowerCase(website: string)
    ensures GetIconForWebsite(website) == GetIconForWebsite(ToLowerCase(website))
  {
    ToLowerCaseIdempotent(website);
  }

  /**
   * The "email" entry is never the first match: "mail" comes before it and
   * occurs in every string that contains "email".
   */
  lemma EmailEntryShadowed(lowerCaseWebsite: string)
    ensures FirstMatch(lowerCaseWebsite, 0) != Some(13)
  {
    assert IconTable[12].0 == "mail" && IconTable[13].0 == "email";
    if Includes(lowerCaseWebsite, "email") {
      assert "mail" <= "email"[1..];
      IncludesTransitive(lowerCaseWebsite, "email", "mail");
    }
  }

  /** A website containing "email" and none of the keys before "mail" gets the mail icon. */
  lemma EmailGetsMail(website: string)
    requires Includes(ToLowerCase(website), "email")
    requires forall j :: 0 <= j < 12 ==> !Includes(ToLowerCase(website), IconTable[j].0)
    ensures GetIconForWebsite(website) == Mail
  {
    assert IconTable[12] == ("mail", Mail);
    assert "mail" <= "email"[1..];
    IncludesTransitive(ToLowerCase(website), "email", "mail");
  }
}
