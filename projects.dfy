/** The rows of the hosted `projects` table, as the site reads them (`Project` in lib/supabase.ts). */
module Projects {

  datatype Platform = YouTube | TikTok | Instagram {

    /** The string the table and the components use for the platform. */
    function Name(): string {
      match this
      case YouTube => "youtube"
      case TikTok => "tiktok"
      case Instagram => "instagram"
    }
  }

  datatype Project = Project(
    id: string,
    platform: Platform,
    videoUrl: string,   // video_url, as entered by the site's owner
    year: int,
    orderIndex: int,    // order_index
    createdAt: string)  // created_at

  /** The order the query asks for: `year` newest first, then `order_index` ascending. */
  predicate ComesBefore(x: Project, y: Project) {
    x.year > y.year || (x.year == y.year && x.orderIndex <= y.orderIndex)
  }

  predicate InGalleryOrder(projects: seq<Project>) {
    forall i, j :: 0 <= i < j < |projects| ==> ComesBefore(projects[i], projects[j])
  }
}
