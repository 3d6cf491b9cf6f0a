/** The user profile record's field table (src/.../User/StarCitizenUserProfile.cs). */
module UserProfile {
  import opened Wrappers
  import opened FieldTables

  /** The fields of `StarCitizenUserProfile`, in declaration order. */
  datatype ProfileField = Badge | BadgeImage | Display | Enlisted | Fluency | Handle | Id | Image | Page

  /** A profile field's name, declared type and key override. Only
      `BadgeImage` carries an `[ApiName]` override. */
  function ProfileDescriptor(f: ProfileField): (d: FieldDescriptor)
    ensures d.apiName.Some? <==> f == BadgeImage
    ensures d.fieldType == DateTimeField <==> f == Enlisted
    ensures d.fieldType.ListField? <==> f == Fluency
  {
    match f
    case Badge => FieldDescriptor("Badge", StringField, None)
    case BadgeImage => FieldDescriptor("BadgeImage", StringField, Some("badge_image"))
    case Display => FieldDescriptor("Display", StringField, None)
    case Enlisted => FieldDescriptor("Enlisted", DateTimeField, None)
    case Fluency => FieldDescriptor("Fluency", ListField("string"), None)
    case Handle => FieldDescriptor("Handle", StringField, None)
    case Id => FieldDescriptor("Id", StringField, None)
    case Image => FieldDescriptor("Image", StringField, None)
    case Page => FieldDescriptor("Page", StringPairField, None)
  }

  /** No two profile fields share a name. */
  lemma ProfileNamesDistinct(f: ProfileField, g: ProfileField)
    requires ProfileDescriptor(f).name == ProfileDescriptor(g).name
    ensures f == g
  {
  }

  /** `BadgeImage` is read from `badge_image`; every other field takes the
      engine's derived key, and the plain fields are strings. */
  lemma ProfileSourceKeys(deriveKey: string -> string)
    ensures SourceKey(ProfileDescriptor(BadgeImage), deriveKey) == "badge_image"
    ensures forall f :: f != BadgeImage ==> SourceKey(ProfileDescriptor(f), deriveKey) == deriveKey(ProfileDescriptor(f).name)
    ensures forall f :: f in {Badge, Display, Handle, Id, Image} ==> ProfileDescriptor(f).fieldType == StringField
  {
  }
}
